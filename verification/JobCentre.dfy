/** The internal loop itself: jobs are shared objects with a mutable owner, referenced from the job list
    and from the queues; each branch is proved to be the machine's step. */
module JobCentres {
  import opened Prelude
  import opened JobMachine

  class JobRef {
    const id: JobId
    const data: Payload
    const priority: nat
    const queue: string
    var owner: ClientId

    constructor (id: JobId, data: Payload, priority: nat, queue: string)
      ensures this.id == id && this.AsJob() == Job(queue, data, priority, 0)
    {
      this.id, this.data, this.priority, this.queue, this.owner := id, data, priority, queue, 0;
    }

    ghost function AsJob(): Job
      reads this
    {
      Job(queue, data, priority, owner)
    }
  }

  function Ids(refs: seq<JobRef>): (ids: seq<JobId>)
    ensures |ids| == |refs| && forall i :: 0 <= i < |refs| ==> ids[i] == refs[i].id
  {
    seq(|refs|, i requires 0 <= i < |refs| => refs[i].id)
  }

  function IdMap(queues: map<string, seq<JobRef>>): (ids: map<string, seq<JobId>>)
    ensures ids.Keys == queues.Keys && forall name :: name in queues ==> ids[name] == Ids(queues[name])
  {
    map name | name in queues :: Ids(queues[name])
  }

  /** The references are the objects the table names. */
  ghost predicate Known(heap: map<JobId, JobRef>, refs: seq<JobRef>) {
    forall i :: 0 <= i < |refs| ==> refs[i].id in heap && heap[refs[i].id] == refs[i]
  }

  ghost predicate AllKnown(heap: map<JobId, JobRef>, queues: map<string, seq<JobRef>>) {
    forall name :: name in queues ==> Known(heap, queues[name])
  }

  lemma KnownGrows(heap: map<JobId, JobRef>, job: JobRef, refs: seq<JobRef>, queues: map<string, seq<JobRef>>)
    requires job.id !in heap && Known(heap, refs) && AllKnown(heap, queues)
    ensures var more := heap[job.id := job]; Known(more, refs + [job]) && AllKnown(more, queues)
  {
  }

  lemma IdsGrow(refs: seq<JobRef>, job: JobRef)
    ensures Ids(refs + [job]) == Ids(refs) + [job.id]
  {
  }

  lemma UpdateQueue(queues: map<string, seq<JobRef>>, name: string, refs: seq<JobRef>)
    ensures IdMap(queues[name := refs]) == IdMap(queues)[name := Ids(refs)]
    ensures Ids(At(queues, name)) == At(IdMap(queues), name)
  {
  }

  /** slices.DeleteFunc with the id as the test. */
  function WithoutRef(refs: seq<JobRef>, id: JobId): (r: seq<JobRef>)
    ensures Ids(r) == Without(Ids(refs), id)
    ensures forall x :: x in r ==> x in refs
  {
    if refs == [] then []
    else
      assert Ids(refs)[1..] == Ids(refs[1..]);
      var rest := WithoutRef(refs[1..], id);
      if refs[0].id == id then rest
      else
        assert Ids([refs[0]] + rest) == [refs[0].id] + Ids(rest);
        [refs[0]] + rest
  }

  lemma FirstIndexIs(ids: seq<JobId>, id: JobId, i: nat)
    requires i < |ids| && ids[i] == id && forall k :: 0 <= k < i ==> ids[k] != id
    ensures IndexOf(ids, id) == i
    decreases |ids|
  {
    if i > 0 {
      FirstIndexIs(ids[1..], id, i - 1);
    }
  }

  /** Cutting out the first reference with the id cuts out the first id. */
  lemma CutIds(refs: seq<JobRef>, i: nat, id: JobId)
    requires i < |refs| && refs[i].id == id && forall k :: 0 <= k < i ==> refs[k].id != id
    ensures Ids(RemoveAt(refs, i)) == Drop(Ids(refs), id)
  {
    FirstIndexIs(Ids(refs), id, i);
  }

  lemma PickNext(store: map<JobId, Job>, ids: seq<JobId>, id: JobId)
    ensures Pick(store, ids + [id]) == Better(store, Pick(store, ids), id)
  {
    assert (ids + [id])[..|ids|] == ids;
  }

  class JobCentre {
    var jobNextId: nat
    var clients: set<ClientId>
    var waiters: seq<Waiter>
    var queues: map<string, seq<JobRef>>
    var jobs: seq<JobRef>
    var out: seq<Response>
    ghost var heap: map<JobId, JobRef>  // every job object ever made
    ghost var store: map<JobId, Job>    // and its present value
    ghost var repr: set<JobRef>

    ghost function View(): Centre
      reads this
    {
      Centre(jobNextId, clients, waiters, IdMap(queues), Ids(jobs), store, out)
    }

    ghost predicate Mirrored()
      reads this, repr
    {
      && heap.Keys == store.Keys
      && (forall id :: id in heap ==> heap[id] in repr && heap[id].id == id && heap[id].AsJob() == store[id])
      && (forall id :: id in heap ==> id < jobNextId)
    }

    ghost predicate Valid()
      reads this, repr
    {
      && Mirrored()
      && Known(heap, jobs)
      && AllKnown(heap, queues)
    }

    constructor ()
      ensures Valid() && View() == OPENING && repr == {}
    {
      jobNextId, clients, waiters := 1, {}, [];
      queues, jobs, out := map[], [], [];
      heap, store, repr := map[], map[], {};
    }

    method Write(r: Response)
      modifies this`out
      ensures out == old(out) + [r]
    {
      out := out + [r];
    }

    method SetOwner(job: JobRef, owner: ClientId)
      requires Valid() && Known(heap, [job])
      modifies this`store, job
      ensures Valid() && job.id in old(store)
      ensures store == old(store)[job.id := old(store)[job.id].(owner := owner)]
    {
      assert [job][0] == job;
      job.owner := owner;
      store := store[job.id := store[job.id].(owner := owner)];
    }

    method Enqueue(job: JobRef)
      requires Valid() && Known(heap, [job])
      modifies this`queues
      ensures Valid() && IdMap(queues) == old(IdMap(queues))[job.queue := At(old(IdMap(queues)), job.queue) + [job.id]]
    {
      assert [job][0] == job;
      var q := At(queues, job.queue) + [job];
      UpdateQueue(queues, job.queue, q);
      assert Ids(q) == Ids(At(queues, job.queue)) + [job.id];
      queues := queues[job.queue := q];
    }

    /** The first of the first n waiters that asked for the queue, or n. */
    method FindWaiter(queue: string, n: nat) returns (i: nat)
      requires n <= |waiters|
      ensures i == FirstWaiter(waiters[..n], queue)
    {
      i := 0;
      while i < n
        invariant i <= n
        invariant FirstWaiter(waiters[..n], queue) == i + FirstWaiter(waiters[..n][i..], queue)
      {
        assert waiters[..n][i..][0] == waiters[i] && waiters[..n][i..][1..] == waiters[..n][i + 1..];
        if queue in waiters[i].queues {
          return;
        }
        i := i + 1;
      }
    }

    method NewJob(queue: string, data: Payload, pri: nat) returns (job: JobRef)
      requires Valid()
      modifies this`jobNextId, this`jobs, this`heap, this`store, this`repr
      ensures Valid() && Known(heap, [job]) && fresh(repr - old(repr))
      ensures jobNextId == old(jobNextId) + 1 && job.id == old(jobNextId)
      ensures job.queue == queue && job.data == data && job.priority == pri
      ensures Ids(jobs) == old(Ids(jobs)) + [job.id]
      ensures store == old(store)[job.id := Job(queue, data, pri, 0)]
    {
      job := new JobRef(jobNextId, data, pri, queue);
      KnownGrows(heap, job, jobs, queues);
      IdsGrow(jobs, job);
      jobNextId := jobNextId + 1;
      heap, store, repr := heap[job.id := job], store[job.id := job.AsJob()], repr + {job};
      jobs := jobs + [job];
    }

    /** Answer the first waiter for the job's queue, if any; the job's owner is not set here. */
    method AnswerWaiter(job: JobRef)
      modifies this`waiters, this`out
      ensures var k := FirstWaiter(old(waiters), job.queue);
              if k == |old(waiters)| then waiters == old(waiters) && out == old(out)
              else waiters == RemoveAt(old(waiters), k) &&
                   out == old(out) + [Given(old(waiters)[k].client, job.id, job.queue, job.data, job.priority)]
    {
      var i := FindWaiter(job.queue, |waiters|);
      assert waiters[..|waiters|] == waiters;
      if i < |waiters| {
        var waiter := waiters[i];
        waiters := RemoveAt(waiters, i);
        Write(Given(waiter.client, job.id, job.queue, job.data, job.priority));
      }
    }

    /** Make the job, list it and queue it. */
    method FileJob(queue: string, data: Payload, pri: nat) returns (job: JobRef)
      requires Valid()
      modifies this`jobNextId, this`jobs, this`heap, this`store, this`repr, this`queues
      ensures Valid() && fresh(repr - old(repr))
      ensures jobNextId == old(jobNextId) + 1 && job.id == old(jobNextId)
      ensures job.queue == queue && job.data == data && job.priority == pri
      ensures Ids(jobs) == old(Ids(jobs)) + [job.id]
      ensures store == old(store)[job.id := Job(queue, data, pri, 0)]
      ensures IdMap(queues) == old(IdMap(queues))[queue := At(old(IdMap(queues)), queue) + [job.id]]
    {
      job := NewJob(queue, data, pri);
      Enqueue(job);
    }

    method HandlePut(client: ClientId, queue: string, data: Payload, pri: nat)
      requires Valid()
      modifies this`jobNextId, this`jobs, this`heap, this`store, this`repr, this`queues, this`out, this`waiters
      ensures Valid() && fresh(repr - old(repr))
      ensures View() == PutStep(old(View()), client, queue, data, pri)
    {
      var job := FileJob(queue, data, pri);
      Write(PutOk(client, job.id));
      AnswerWaiter(job);
    }

    /** job is the pick of the ids scanned so far. */
    ghost predicate Chosen(ids: seq<JobId>, job: JobRef?)
      reads this, repr
    {
      match Pick(store, ids)
      case None => job == null
      case Some(id) => job != null && job.id == id && Known(heap, [job]) && Pri(store, id) == job.priority
    }

    lemma ChosenNext(seen: seq<JobId>, j: JobRef, best: JobRef?)
      requires Valid() && Chosen(seen, best) && j.id in heap && heap[j.id] == j
      ensures Chosen(seen + [j.id], if best == null || j.priority > best.priority then j else best)
    {
      assert store[j.id] == j.AsJob();
      PickNext(store, seen, j.id);
    }

    /** The inner loop of the scan: improve on the best so far with one queue. */
    method ScanQueue(q: seq<JobRef>, best: JobRef?, ghost before: seq<JobId>) returns (job: JobRef?)
      requires Valid() && Known(heap, q) && Chosen(before, best)
      ensures Chosen(before + Ids(q), job)
    {
      job := best;
      var k := 0;
      assert before + Ids(q)[..0] == before;
      while k < |q|
        invariant k <= |q| && Chosen(before + Ids(q)[..k], job)
      {
        var j := q[k];
        ghost var seen := before + Ids(q)[..k];
        ChosenNext(seen, j, job);
        assert before + Ids(q)[..k + 1] == seen + [j.id];
        if job == null || j.priority > job.priority {
          job := j;
        }
        k := k + 1;
      }
      assert Ids(q)[..k] == Ids(q);
    }

    /** The nested scan over the requested queues. */
    method FindBest(names: seq<string>) returns (job: JobRef?)
      requires Valid()
      ensures Chosen(Scan(IdMap(queues), names), job)
    {
      job := null;
      var n := 0;
      while n < |names|
        invariant n <= |names| && Chosen(Scan(IdMap(queues), names[..n]), job)
      {
        var q := At(queues, names[n]);
        UpdateQueue(queues, names[n], q);
        assert names[..n + 1][..n] == names[..n];
        job := ScanQueue(q, job, Scan(IdMap(queues), names[..n]));
        n := n + 1;
      }
      assert names[..n] == names;
    }

    /** Answer with the job, own it, and take every entry of it off its queue. */
    method Assign(client: ClientId, job: JobRef)
      requires Valid() && Known(heap, [job])
      modifies this`out, this`queues, this`store, job
      ensures Valid() && job.id in old(store)
      ensures out == old(out) + [Gift(client, job.id, old(store)[job.id])]
      ensures store == old(store)[job.id := old(store)[job.id].(owner := client)]
      ensures IdMap(queues) == old(IdMap(queues))[job.queue := Without(At(old(IdMap(queues)), job.queue), job.id)]
    {
      assert [job][0] == job;
      Write(Given(client, job.id, job.queue, job.data, job.priority));
      SetOwner(job, client);
      RemoveFromQueue(job);
    }

    method HandleGet(client: ClientId, names: seq<string>, wait: bool)
      requires Valid()
      modifies this`out, this`queues, this`store, this`waiters, repr
      ensures Valid() && View() == GetStep(old(View()), client, names, wait)
    {
      var job := FindBest(names);
      if job == null {
        if wait {
          waiters := waiters + [Waiter(client, names)];
          return;
        }
        Write(NoJob(client));
        return;
      }
      assert [job][0] == job && store[job.id].queue == job.queue;
      Assign(client, job);
    }

    method RemoveFromQueue(job: JobRef)
      requires Valid()
      modifies this`queues
      ensures Valid()
      ensures IdMap(queues) == old(IdMap(queues))[job.queue := Without(At(old(IdMap(queues)), job.queue), job.id)]
    {
      var q := At(queues, job.queue);
      var r := WithoutRef(q, job.id);
      UpdateQueue(queues, job.queue, r);
      forall i | 0 <= i < |r|
        ensures r[i].id in heap && heap[r[i].id] == r[i]
      {
        assert r[i] in r;
        var k :| 0 <= k < |q| && q[k] == r[i];
      }
      queues := queues[job.queue := r];
    }

    /** The first job of the list with this id. */
    method FindJob(id: int) returns (idx: nat, job: JobRef?)
      requires Valid()
      ensures job == null <==> id !in Ids(jobs)
      ensures job != null ==> idx < |jobs| && jobs[idx] == job && job.id == id
      ensures job != null ==> forall k :: 0 <= k < idx ==> jobs[k].id != id
    {
      idx, job := 0, null;
      while idx < |jobs|
        invariant idx <= |jobs| && forall k :: 0 <= k < idx ==> jobs[k].id != id
      {
        if jobs[idx].id == id {
          assert Ids(jobs)[idx] == id;
          return idx, jobs[idx];
        }
        idx := idx + 1;
      }
      assert forall k :: 0 <= k < |jobs| ==> Ids(jobs)[k] == jobs[k].id;
    }

    method HandleAbort(client: ClientId, id: int)
      requires Valid()
      modifies this
      ensures Valid() && repr == old(repr)
      ensures View() == AbortStep(old(View()), client, id)
    {
      var _, job := FindJob(id);
      if job == null || job.owner != client {
        Write(NoJob(client));
        return;
      }
      assert [job][0] == job;
      Enqueue(job);
      Write(Done(client));
    }

    /** Cut the first reference to the job out of its queue, if there is one. */
    method CutFromQueue(job: JobRef)
      requires Valid() && Known(heap, [job])
      modifies this`queues
      ensures Valid()
      ensures var ids := At(old(IdMap(queues)), job.queue);
              IdMap(queues) == if job.id in ids then old(IdMap(queues))[job.queue := Drop(ids, job.id)]
                               else old(IdMap(queues))
    {
      assert [job][0] == job;
      var q := At(queues, job.queue);
      UpdateQueue(queues, job.queue, q);
      var idx := IndexOf(q, job);
      if idx != -1 {
        assert forall k :: 0 <= k < idx ==> q[k] == q[..idx][k];
        CutIds(q, idx, job.id);
        UpdateQueue(queues, job.queue, RemoveAt(q, idx));
        assert Ids(q)[idx] == job.id;
        queues := queues[job.queue := RemoveAt(q, idx)];
      } else {
        assert forall k :: 0 <= k < |q| ==> Ids(q)[k] == q[k].id && heap[q[k].id] == q[k];
      }
    }

    /** Cut the job out of the job list. */
    method CutFromJobs(idx: nat)
      requires Valid() && idx < |jobs| && forall k :: 0 <= k < idx ==> jobs[k].id != jobs[idx].id
      modifies this`jobs
      ensures Valid() && Ids(jobs) == Drop(old(Ids(jobs)), old(jobs[idx]).id)
    {
      CutIds(jobs, idx, jobs[idx].id);
      jobs := RemoveAt(jobs, idx);
    }

    method HandleDelete(client: ClientId, id: int)
      requires Valid()
      modifies this`jobs, this`queues, this`out
      ensures Valid() && View() == DeleteStep(old(View()), client, id)
    {
      var idx, job := FindJob(id);
      if job == null {
        Write(NoJob(client));
        return;
      }
      assert [job][0] == job && store[job.id] == job.AsJob();
      CutFromJobs(idx);
      if job.owner == 0 {
        CutFromQueue(job);
      }
      Write(Done(client));
    }

    // ---- disconnect ----

    ghost function FloorView(live: nat): Floor
      reads this
    {
      Floor(waiters, live, IdMap(queues), store, out)
    }

    /** One round of the release loop; live is the length of the shadowing inner slice, whose append
        moves elements of the shared backing array. */
    method Release(job: JobRef, client: ClientId, live: nat) returns (live': nat)
      requires Valid() && Known(heap, [job]) && live <= |waiters|
      modifies this`waiters, this`queues, this`store, this`out, job
      ensures Valid() && live' <= |waiters|
      ensures FloorView(live') == ReleaseOne(old(FloorView(live)), client, job.id)
    {
      assert [job][0] == job;
      live' := live;
      if job.owner != client {
        return;
      }
      var i := FindWaiter(job.queue, live);
      if i < live {
        var waiter := waiters[i];
        SetOwner(job, waiter.client);
        waiters := ShiftUp(waiters, i, live);
        live' := live - 1;
        Write(Given(waiter.client, job.id, job.queue, job.data, job.priority));
      } else {
        SetOwner(job, 0);
        Enqueue(job);
      }
    }

    method ReleaseJobs(client: ClientId, live: nat)
      requires Valid() && live <= |waiters|
      modifies this`waiters, this`queues, this`store, this`out, repr
      ensures Valid()
      ensures exists n :: FloorView(n) == ReleaseAll(old(FloorView(live)), client, Ids(jobs))
    {
      var left: nat := live;
      var i := 0;
      while i < |jobs|
        invariant i <= |jobs| && Valid() && left <= |waiters|
        invariant FloorView(left) == ReleaseAll(old(FloorView(live)), client, Ids(jobs)[..i])
      {
        left := Release(jobs[i], client, left);
        assert Ids(jobs)[..i + 1][..i] == Ids(jobs)[..i];
        i := i + 1;
      }
      assert Ids(jobs)[..i] == Ids(jobs);
    }

    method HandleDisconnected(client: ClientId)
      requires Valid()
      modifies this`clients, this`waiters, this`queues, this`store, this`out, repr
      ensures Valid() && View() == DisconnectStep(old(View()), client)
    {
      clients := clients - {client};
      var live := |KeepOthers(waiters, client)|;
      waiters := Compacted(waiters, client);
      ReleaseJobs(client, live);
    }

    method Handle(msg: Message)
      requires Valid()
      modifies this, repr
      ensures Valid() && fresh(repr - old(repr))
      ensures View() == Step(old(View()), msg)
    {
      match msg
      case Connected(client) => clients := clients + {client};
      case Disconnected(client) => HandleDisconnected(client);
      case Put(client, queue, data, pri) => HandlePut(client, queue, data, pri);
      case Get(client, names, wait) => HandleGet(client, names, wait);
      case Abort(client, id) => HandleAbort(client, id);
      case Delete(client, id) => HandleDelete(client, id);
    }

    /** The message loop: after any messages the object is in the state every run theorem speaks of. */
    method Serve(msgs: seq<Message>)
      requires Valid() && View() == OPENING
      modifies this, repr
      ensures Valid() && View() == Run(msgs)
    {
      var i := 0;
      while i < |msgs|
        invariant 0 <= i <= |msgs| && Valid() && fresh(repr - old(repr))
        invariant View() == Run(msgs[..i])
      {
        Handle(msgs[i]);
        assert msgs[..i + 1][..i] == msgs[..i];
        i := i + 1;
      }
      assert msgs[..i] == msgs;
    }
  }
}
