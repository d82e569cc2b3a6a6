/** The job centre told from the messages alone: which jobs there are, what a delete answers, and which of the
    jobs and of the waiters comes first. */
module JobHistory {
  import opened Prelude
  import opened JobMachine
  import opened JobTheorems
  import opened JobAssignment
  import opened JobWaiters

  // ---- Which jobs are live ----

  /** Message k is the put numbered id. */
  ghost predicate PutAs(msgs: seq<Message>, k: int, id: int) {
    0 <= k < |msgs| && msgs[k].Put? && |Puts(msgs[..k])| + 1 == id
  }

  ghost predicate DeletedAfter(msgs: seq<Message>, k: int, id: int) {
    exists j :: 0 <= k < j < |msgs| && msgs[j].Delete? && msgs[j].id == id
  }

  /** The job was put, and no delete has named it since. */
  ghost predicate Live(msgs: seq<Message>, id: int) {
    exists k :: PutAs(msgs, k, id) && !DeletedAfter(msgs, k, id)
  }

  lemma PutAsNext(msgs: seq<Message>, msg: Message, k: int, id: int)
    ensures PutAs(msgs + [msg], k, id) <==> PutAs(msgs, k, id) || (k == |msgs| && msg.Put? && |Puts(msgs)| + 1 == id)
  {
    var more := msgs + [msg];
    if 0 <= k <= |msgs| {
      assert more[..k] == msgs[..k];
      assert k == |msgs| ==> msgs[..k] == msgs;
    }
  }

  lemma DeletedNext(msgs: seq<Message>, msg: Message, k: int, id: int)
    requires 0 <= k < |msgs|
    ensures DeletedAfter(msgs + [msg], k, id) <==> DeletedAfter(msgs, k, id) || (msg.Delete? && msg.id == id)
  {
    var more := msgs + [msg];
    assert more[|msgs|] == msg;
    if DeletedAfter(msgs, k, id) {
      var j :| 0 <= k < j < |msgs| && msgs[j].Delete? && msgs[j].id == id;
      assert more[j].Delete? && more[j].id == id;
    }
  }

  lemma LiveNext(msgs: seq<Message>, msg: Message, id: int)
    ensures Live(msgs + [msg], id) <==>
            (msg.Put? && |Puts(msgs)| + 1 == id) || (Live(msgs, id) && !(msg.Delete? && msg.id == id))
  {
    var more := msgs + [msg];
    if Live(more, id) {
      var k :| PutAs(more, k, id) && !DeletedAfter(more, k, id);
      PutAsNext(msgs, msg, k, id);
      if k < |msgs| {
        DeletedNext(msgs, msg, k, id);
      }
    }
    if msg.Put? && |Puts(msgs)| + 1 == id {
      PutAsNext(msgs, msg, |msgs|, id);
      assert PutAs(more, |msgs|, id) && !DeletedAfter(more, |msgs|, id);
    } else if Live(msgs, id) && !(msg.Delete? && msg.id == id) {
      var k :| PutAs(msgs, k, id) && !DeletedAfter(msgs, k, id);
      PutAsNext(msgs, msg, k, id);
      DeletedNext(msgs, msg, k, id);
      assert PutAs(more, k, id) && !DeletedAfter(more, k, id);
    }
  }

  lemma JobsNext(s: Centre, msg: Message, id: int)
    requires CentreOk(s)
    ensures id in Step(s, msg).jobs <==>
            (msg.Put? && s.nextId == id) || (id in s.jobs && !(msg.Delete? && msg.id == id))
  {
    match msg
    case Put(_, _, _, _) =>
    case Delete(_, other) =>
      if other in s.jobs {
        DropIncreasing(s.jobs, other);
        if id >= 0 {
          DropMembers(s.jobs, other, id);
        }
      }
    case _ =>
  }

  /** The job list holds exactly the jobs that were put and not deleted since. */
  lemma {:induction false} LiveIsListed(msgs: seq<Message>, id: int)
    requires Disciplined(msgs)
    ensures id in Run(msgs).jobs <==> Live(msgs, id)
    decreases |msgs|
  {
    if msgs != [] {
      var init, msg := msgs[..|msgs| - 1], msgs[|msgs| - 1];
      assert msgs == init + [msg];
      DisciplinedPrefix(msgs);
      LiveIsListed(init, id);
      NoJobLost(init);
      DeliveryIntegrity(init);
      JobsNext(Run(init), msg, id);
      LiveNext(init, msg, id);
    }
  }

  // ---- What a delete answers and does ----

  /** The same entries in the same order, apart from those of one job. */
  ghost predicate SameButFor(queues: map<string, seq<JobId>>, queues': map<string, seq<JobId>>, id: JobId) {
    forall name :: Without(At(queues', name), id) == Without(At(queues, name), id)
  }

  lemma {:induction false} WithoutDropped(ids: seq<JobId>, i: nat, id: JobId)
    requires i < |ids| && ids[i] == id
    ensures Without(RemoveAt(ids, i), id) == Without(ids, id)
    decreases i
  {
    if i == 0 {
      assert RemoveAt(ids, 0) == ids[1..];
    } else {
      WithoutDropped(ids[1..], i - 1, id);
      assert RemoveAt(ids, i)[1..] == RemoveAt(ids[1..], i - 1);
    }
  }

  lemma WithoutDrop(ids: seq<JobId>, id: JobId)
    ensures Without(Drop(ids, id), id) == Without(ids, id)
  {
    if IndexOf(ids, id) != -1 {
      WithoutDropped(ids, IndexOf(ids, id), id);
    }
  }

  lemma {:induction false} WithoutAbsent(ids: seq<JobId>, id: JobId)
    requires id !in ids
    ensures Without(ids, id) == ids
    decreases |ids|
  {
    if ids != [] {
      WithoutAbsent(ids[1..], id);
    }
  }

  lemma DropIsWithout(ids: seq<JobId>, id: JobId)
    requires Increasing(ids)
    ensures Drop(ids, id) == Without(ids, id)
  {
    DropIncreasing(ids, id);
    WithoutDrop(ids, id);
    WithoutAbsent(Drop(ids, id), id);
  }

  lemma ListedDelete(s: Centre, client: ClientId, id: JobId)
    requires CentreOk(s) && id in s.jobs
    ensures var s' := DeleteStep(s, client, id);
            && s'.jobs == Without(s.jobs, id) && SameButFor(s.queues, s'.queues, id)
            && s' == s.(jobs := s'.jobs, queues := s'.queues, out := s.out + [Done(client)])
  {
    DropIsWithout(s.jobs, id);
    WithoutDrop(At(s.queues, s.store[id].queue), id);
  }

  lemma RunBefore(msgs: seq<Message>, msg: Message)
    requires Disciplined(msgs + [msg])
    ensures Disciplined(msgs) && CentreOk(Run(msgs)) && Enabled(Run(msgs), msg)
    ensures Run(msgs + [msg]) == Step(Run(msgs), msg)
  {
    assert (msgs + [msg])[..|msgs|] == msgs;
    DisciplinedPrefix(msgs + [msg]);
    NoJobLost(msgs);
  }

  /** A delete is answered once: with ok if the job was put and no delete named it since, and then only that
      job leaves the list and only its entries may leave a queue; with no-job otherwise, and then nothing
      else changes. */
  lemma DeleteReply(msgs: seq<Message>, client: ClientId, id: int)
    requires Disciplined(msgs + [Delete(client, id)])
    ensures var s, s' := Run(msgs), Run(msgs + [Delete(client, id)]);
            if Live(msgs, id) then
              && id > 0 && s'.jobs == Without(s.jobs, id) && SameButFor(s.queues, s'.queues, id)
              && s' == s.(jobs := s'.jobs, queues := s'.queues, out := s.out + [Done(client)])
            else s' == s.(out := s.out + [NoJob(client)])
  {
    RunBefore(msgs, Delete(client, id));
    LiveIsListed(msgs, id);
    if id in Run(msgs).jobs {
      ListedDelete(Run(msgs), client, id);
    }
  }

  // ---- Older jobs first ----

  /** A message that puts no job back. */
  ghost predicate NoReturn(msg: Message) {
    !msg.Abort? && !msg.Disconnected?
  }

  ghost predicate NothingReturned(msgs: seq<Message>) {
    forall k :: 0 <= k < |msgs| ==> NoReturn(msgs[k])
  }

  ghost predicate InOrder(queues: map<string, seq<JobId>>) {
    forall name :: name in queues ==> Increasing(queues[name])
  }

  lemma {:induction false} WithoutIncreasing(ids: seq<JobId>, id: JobId)
    requires Increasing(ids)
    ensures Increasing(Without(ids, id))
    decreases |ids|
  {
    if ids != [] {
      WithoutIncreasing(ids[1..], id);
      var rest := Without(ids[1..], id);
      forall i | 0 <= i < |rest|
        ensures ids[0] < rest[i]
      {
        assert rest[i] in ids[1..];
      }
    }
  }

  lemma PutInOrder(s: Centre, msg: Message)
    requires CentreOk(s) && InOrder(s.queues) && msg.Put?
    ensures InOrder(Step(s, msg).queues)
  {
    var q := At(s.queues, msg.queue);
    forall i | 0 <= i < |q|
      ensures q[i] < s.nextId
    {
      assert q[i] in s.queues[msg.queue] && q[i] in s.store;
    }
  }

  lemma StepInOrder(s: Centre, msg: Message)
    requires CentreOk(s) && InOrder(s.queues) && NoReturn(msg)
    ensures InOrder(Step(s, msg).queues)
  {
    match msg
    case Connected(_) =>
    case Put(_, _, _, _) => PutInOrder(s, msg);
    case Get(_, names, _) =>
      PickIsQueued(s, names);
      var pick := Pick(s.store, Scan(s.queues, names));
      if pick.Some? {
        WithoutIncreasing(At(s.queues, s.store[pick.value].queue), pick.value);
      }
    case Delete(_, id) =>
      if id in s.jobs {
        DropIncreasing(At(s.queues, s.store[id].queue), id);
      }
  }

  lemma {:induction false} QueuesInOrder(msgs: seq<Message>)
    requires Disciplined(msgs) && NothingReturned(msgs)
    ensures InOrder(Run(msgs).queues)
    decreases |msgs|
  {
    if msgs != [] {
      var init := msgs[..|msgs| - 1];
      DisciplinedPrefix(msgs);
      NoJobLost(init);
      QueuesInOrder(init);
      StepInOrder(Run(init), msgs[|msgs| - 1]);
    }
  }

  lemma OrderedBefore(msgs: seq<Message>, msg: Message)
    requires Disciplined(msgs + [msg]) && NothingReturned(msgs)
    ensures CentreOk(Run(msgs)) && InOrder(Run(msgs).queues) && Run(msgs + [msg]) == Step(Run(msgs), msg)
  {
    RunBefore(msgs, msg);
    QueuesInOrder(msgs);
  }

  /** The scan comes to the jobs of a queue in the order of the queue. */
  lemma {:induction false} ScanInOrder(s: Centre, names: seq<string>, k: nat, older: JobId)
    requires Labelled(s.queues, s.store) && InOrder(s.queues)
    requires k < |Scan(s.queues, names)| && older < Scan(s.queues, names)[k]
    requires var id := Scan(s.queues, names)[k]; id in s.store && older in At(s.queues, s.store[id].queue)
    ensures older in Scan(s.queues, names)[..k]
    decreases |names|
  {
    var init, last := names[..|names| - 1], names[|names| - 1];
    var before, scan := Scan(s.queues, init), Scan(s.queues, names);
    if k < |before| {
      ScanInOrder(s, init, k, older);
      assert scan[..k] == before[..k];
    } else {
      var q, b := At(s.queues, last), k - |before|;
      assert q[b] == scan[k] && q[b] in s.queues[last];
      var a :| 0 <= a < |q| && q[a] == older;
      assert a < b;
      assert scan[..k][|before| + a] == older;
    }
  }

  lemma TakesOldest(s: Centre, client: ClientId, names: seq<string>, wait: bool, id: JobId, older: JobId)
    requires CentreOk(s) && InOrder(s.queues) && Gave(s.out, GetStep(s, client, names, wait).out, client, id)
    requires id in s.store && older < id && older in At(s.queues, s.store[id].queue)
    ensures Pri(s.store, older) < Pri(s.store, id)
  {
    var scan := Scan(s.queues, names);
    PickIsFirstBest(s.store, scan);
    PickIsQueued(s, names);
    assert Pick(s.store, scan) == Some(id);
    var k :| 0 <= k < |scan| && scan[k] == id && BestAt(s.store, scan, k);
    ScanInOrder(s, names, k, older);
  }

  /** As long as nothing is put back, a get never passes over an older job of the same queue whose priority is
      as high. */
  lemma OldestFirst(msgs: seq<Message>, client: ClientId, names: seq<string>, wait: bool, id: JobId, older: JobId)
    requires Disciplined(msgs + [Get(client, names, wait)]) && NothingReturned(msgs)
    requires Gave(Run(msgs).out, Run(msgs + [Get(client, names, wait)]).out, client, id)
    requires id in Run(msgs).store && older < id && older in At(Run(msgs).queues, Run(msgs).store[id].queue)
    ensures Pri(Run(msgs).store, older) < Pri(Run(msgs).store, id)
  {
    OrderedBefore(msgs, Get(client, names, wait));
    TakesOldest(Run(msgs), client, names, wait, id, older);
  }

  lemma InPrefix(before: seq<JobId>, after: seq<JobId>, k: nat, x: JobId)
    requires x in before && |before| <= k <= |before + after|
    ensures x in (before + after)[..k]
  {
    var i :| 0 <= i < |before| && before[i] == x;
    assert (before + after)[..k][i] == x;
  }

  /** The scan comes to a job of the a-th queue before it comes to one of queues named later only. */
  lemma {:induction false} ScanByName(queues: map<string, seq<JobId>>, names: seq<string>, k: nat, a: nat, x: JobId)
    requires k < |Scan(queues, names)| && a < |names| && x in At(queues, names[a])
    ensures x in Scan(queues, names)[..k] ||
            exists b :: 0 <= b <= a && Scan(queues, names)[k] in At(queues, names[b])
    decreases |names|
  {
    var init, last, id := names[..|names| - 1], names[|names| - 1], Scan(queues, names)[k];
    var before := Scan(queues, init);
    if a == |init| {
      ScanMembers(queues, names, id);
    } else if k < |before| {
      ScanByName(queues, init, k, a, x);
      assert Scan(queues, names)[..k] == before[..k];
      if b :| 0 <= b <= a && id in At(queues, init[b]) {
        assert names[b] == init[b];
      }
    } else {
      assert init[a] == names[a];
      ScanMembers(queues, init, x);
      InPrefix(before, At(queues, last), k, x);
    }
  }

  /** A get never passes over a job of a queue it names earlier whose priority is as high. */
  lemma EarlierQueueFirst(s: Centre, client: ClientId, names: seq<string>, wait: bool, id: JobId, a: nat, x: JobId)
    requires CentreOk(s) && Gave(s.out, GetStep(s, client, names, wait).out, client, id)
    requires a < |names| && x in At(s.queues, names[a]) && id in s.store
    ensures Pri(s.store, x) < Pri(s.store, id) || exists b :: 0 <= b <= a && names[b] == s.store[id].queue
  {
    var scan := Scan(s.queues, names);
    PickIsFirstBest(s.store, scan);
    PickIsQueued(s, names);
    assert Pick(s.store, scan) == Some(id);
    var k :| 0 <= k < |scan| && scan[k] == id && BestAt(s.store, scan, k);
    ScanByName(s.queues, names, k, a, x);
    if b :| 0 <= b <= a && id in At(s.queues, names[b]) {
      QueuedUnderName(s.queues, s.store, names[b], id);
    }
  }

  // ---- The release loop on a proper list ----

  /** The other clients' waiters stay in the order in which they came. */
  lemma {:induction false} OthersKeepOrder(ws: seq<Waiter>, w: Waiter, client: ClientId)
    ensures KeepOthers(ws + [w], client) == KeepOthers(ws, client) + (if w.client == client then [] else [w])
    decreases |ws|
  {
    if ws == [] {
      assert ws + [w] == [w] && [w][1..] == [];
    } else {
      assert (ws + [w])[1..] == ws[1..] + [w];
      OthersKeepOrder(ws[1..], w, client);
    }
  }

  /** The waiters of the other clients as a list that entries are really removed from. */
  datatype Roster = Roster(waiting: seq<Waiter>, queues: map<string, seq<JobId>>, store: map<JobId, Job>,
                           out: seq<Response>)

  function ServeOne(r: Roster, gone: ClientId, id: JobId): Roster {
    if id !in r.store || r.store[id].owner != gone then r
    else
      var job := r.store[id];
      var k := FirstWaiter(r.waiting, job.queue);
      if k == |r.waiting| then
        r.(store := r.store[id := job.(owner := 0)],
           queues := r.queues[job.queue := At(r.queues, job.queue) + [id]])
      else
        r.(waiting := RemoveAt(r.waiting, k),
           store := r.store[id := job.(owner := r.waiting[k].client)],
           out := r.out + [Given(r.waiting[k].client, id, job.queue, job.data, job.pri)])
  }

  function ServeAll(r: Roster, gone: ClientId, ids: seq<JobId>): Roster
    decreases |ids|
  {
    if ids == [] then r else ServeAll(ServeOne(r, gone, ids[0]), gone, ids[1..])
  }

  /** The inner slice is the list, and all else is the same. */
  ghost predicate Matches(f: Floor, r: Roster) {
    && f.live <= |f.waiters| && f.waiters[..f.live] == r.waiting
    && f.queues == r.queues && f.store == r.store && f.out == r.out
  }

  lemma MatchesNext(f: Floor, r: Roster, gone: ClientId, id: JobId)
    requires Matches(f, r)
    ensures Matches(ReleaseOne(f, gone, id), ServeOne(r, gone, id))
  {
    if id in f.store && f.store[id].owner == gone {
      var k := FirstWaiter(r.waiting, f.store[id].queue);
      if k < f.live {
        ShiftUpParts(f.waiters, k, f.live);
      }
    }
  }

  lemma {:induction false} ServeAllSnoc(r: Roster, gone: ClientId, ids: seq<JobId>)
    requires ids != []
    ensures ServeAll(r, gone, ids) == ServeOne(ServeAll(r, gone, ids[..|ids| - 1]), gone, ids[|ids| - 1])
    decreases |ids|
  {
    var init, last := ids[..|ids| - 1], ids[|ids| - 1];
    if |ids| == 1 {
      assert ids[1..] == [] && init == [];
    } else {
      ServeAllSnoc(ServeOne(r, gone, ids[0]), gone, ids[1..]);
      assert ids[1..][..|ids| - 2] == init[1..];
    }
  }

  lemma {:induction false} MatchesAll(f: Floor, r: Roster, gone: ClientId, ids: seq<JobId>)
    requires Matches(f, r)
    ensures Matches(ReleaseAll(f, gone, ids), ServeAll(r, gone, ids))
    decreases |ids|
  {
    if ids != [] {
      var init := ids[..|ids| - 1];
      MatchesAll(f, r, gone, init);
      MatchesNext(ReleaseAll(f, gone, init), ServeAll(r, gone, init), gone, ids[|ids| - 1]);
      ServeAllSnoc(r, gone, ids);
    }
  }

  /** Shifting the shared array under the loop's feet changes nothing but the waiter list it leaves behind: the
      jobs go, in the order of the job list, to the first waiter of another client that asked for them, and the
      owners, the queues and the writes are those of a loop that really removes each waiter it answers. */
  lemma DisconnectServesInOrder(s: Centre, gone: ClientId)
    ensures var s' := DisconnectStep(s, gone);
            var r := ServeAll(Roster(KeepOthers(s.waiters, gone), s.queues, s.store, s.out), gone, s.jobs);
            && s'.out == r.out && s'.store == r.store && s'.queues == r.queues
            && s' == s.(clients := s.clients - {gone}, waiters := s'.waiters, queues := s'.queues,
                        store := s'.store, out := s'.out)
            && r.waiting <= s'.waiters
  {
    InnerAtStart(s, gone);
    MatchesAll(OpenFloor(s, gone), Roster(KeepOthers(s.waiters, gone), s.queues, s.store, s.out), gone, s.jobs);
  }
}
