/** How often a waiting get is answered: the waiter slice that the disconnect branch shadows. */
module JobWaiters {
  import opened Prelude
  import opened JobMachine
  import opened JobTheorems
  import opened JobAssignment

  // ---- When a disconnect answers anybody ----

  /** A job of the departing client is in demand: another client waits for its queue. */
  ghost predicate InDemand(s: Centre, gone: ClientId, id: JobId) {
    id in s.store && s.store[id].owner == gone && Awaited(s.waiters, gone, s.store[id].queue)
  }

  /** Somebody other than the client waits for the queue. */
  ghost predicate Awaited(ws: seq<Waiter>, gone: ClientId, queue: string) {
    exists i :: 0 <= i < |ws| && ws[i].client != gone && queue in ws[i].queues
  }

  /** What a caller can see before a disconnect: some listed job of the client is in demand. */
  ghost predicate Wanted(s: Centre, gone: ClientId) {
    exists id :: id in s.jobs && InDemand(s, gone, id)
  }

  lemma FirstIsAwaited(ws: seq<Waiter>, gone: ClientId, queue: string)
    ensures var kept := KeepOthers(ws, gone); FirstWaiter(kept, queue) < |kept| <==> Awaited(ws, gone, queue)
  {
    var kept := KeepOthers(ws, gone);
    var k := FirstWaiter(kept, queue);
    if k < |kept| {
      assert kept[k] in ws;
    }
    if i :| 0 <= i < |ws| && ws[i].client != gone && queue in ws[i].queues {
      assert ws[i] in kept;
    }
  }

  /** The inner slice at the start of the release loop. */
  lemma InnerAtStart(s: Centre, gone: ClientId)
    ensures var f := OpenFloor(s, gone); f.waiters[..f.live] == KeepOthers(s.waiters, gone)
  {
  }

  /** As long as nobody was answered the slice is as it was, and jobs to come are as they were. */
  ghost predicate Quiet(s: Centre, f: Floor, gone: ClientId, n: nat)
    requires n <= |s.jobs|
  {
    && f.live <= |f.waiters| && s.out <= f.out
    && (forall i :: n <= i < |s.jobs| ==> Unvisited(s, f, s.jobs[i]))
    && (f.out == s.out ==> f.waiters[..f.live] == KeepOthers(s.waiters, gone))
    && (f.out == s.out <==> forall i :: 0 <= i < n ==> !InDemand(s, gone, s.jobs[i]))
  }

  ghost predicate Unvisited(s: Centre, f: Floor, id: JobId) {
    id in s.store && id in f.store && f.store[id] == s.store[id]
  }

  /** One visit: a response is added exactly when somebody in the inner slice asked for the job. */
  lemma ReleaseAnswers(f: Floor, gone: ClientId, id: JobId)
    requires f.live <= |f.waiters| && id in f.store
    ensures var f' := ReleaseOne(f, gone, id);
            var inner := f.waiters[..f.live];
            && f.out <= f'.out
            && (f'.out == f.out <==> f.store[id].owner == gone ==> FirstWaiter(inner, f.store[id].queue) == |inner|)
            && (f'.out == f.out ==> f'.live == f.live && f'.waiters == f.waiters)
            && (forall x :: x != id && x in f.store ==> x in f'.store && f'.store[x] == f.store[x])
  {
  }

  lemma QuietNext(s: Centre, f: Floor, gone: ClientId, n: nat)
    requires CentreOk(s) && n < |s.jobs| && Quiet(s, f, gone, n)
    ensures Quiet(s, ReleaseOne(f, gone, s.jobs[n]), gone, n + 1)
  {
    var id := s.jobs[n];
    assert Unvisited(s, f, id);
    ReleaseAnswers(f, gone, id);
    FirstIsAwaited(s.waiters, gone, s.store[id].queue);
    QuietAfter(s, f, ReleaseOne(f, gone, id), gone, n);
  }

  lemma QuietAfter(s: Centre, f: Floor, f': Floor, gone: ClientId, n: nat)
    requires Increasing(s.jobs) && n < |s.jobs| && Quiet(s, f, gone, n)
    requires f.out <= f'.out && f'.live <= |f'.waiters|
    requires f.out == s.out ==> (f'.out == f.out <==> !InDemand(s, gone, s.jobs[n]))
    requires f'.out == f.out ==> f'.live == f.live && f'.waiters == f.waiters
    requires forall x :: x != s.jobs[n] && x in f.store ==> x in f'.store && f'.store[x] == f.store[x]
    ensures Quiet(s, f', gone, n + 1)
  {
    forall i | n + 1 <= i < |s.jobs|
      ensures Unvisited(s, f', s.jobs[i])
    {
      assert s.jobs[i] != s.jobs[n] && Unvisited(s, f, s.jobs[i]);
    }
  }

  lemma {:induction false} QuietLoop(s: Centre, gone: ClientId, n: nat)
    requires CentreOk(s) && n <= |s.jobs|
    ensures Quiet(s, ReleaseAll(OpenFloor(s, gone), gone, s.jobs[..n]), gone, n)
    decreases n
  {
    if n == 0 {
      InnerAtStart(s, gone);
      assert forall i :: 0 <= i < |s.jobs| ==> s.jobs[i] in s.jobs;
    } else {
      QuietLoop(s, gone, n - 1);
      assert s.jobs[..n][..n - 1] == s.jobs[..n - 1];
      QuietNext(s, ReleaseAll(OpenFloor(s, gone), gone, s.jobs[..n - 1]), gone, n - 1);
    }
  }

  /** A disconnect writes nothing if and only if no listed job of the client is in demand. */
  lemma DisconnectAnswers(s: Centre, gone: ClientId)
    requires CentreOk(s)
    ensures DisconnectStep(s, gone).out == s.out <==> !Wanted(s, gone)
  {
    QuietLoop(s, gone, |s.jobs|);
    assert s.jobs[..|s.jobs|] == s.jobs;
    if Wanted(s, gone) {
      var id :| id in s.jobs && InDemand(s, gone, id);
      var i :| 0 <= i < |s.jobs| && s.jobs[i] == id;
    }
  }

  // ---- The books of one client: asked, answered, waiting ----

  /** An entry of the client that a job can answer: one that names a queue. */
  predicate Waits(w: Waiter, c: ClientId) {
    w.client == c && w.queues != []
  }

  /** How many such entries the list has. */
  function Entries(ws: seq<Waiter>, c: ClientId): nat {
    if ws == [] then 0 else (if Waits(ws[0], c) then 1 else 0) + Entries(ws[1..], c)
  }

  /** How many jobs the client was given. */
  function Answers(out: seq<Response>, c: ClientId): nat {
    if out == [] then 0
    else
      var last := out[|out| - 1];
      Answers(out[..|out| - 1], c) + (if last.Given? && last.client == c then 1 else 0)
  }

  lemma {:induction false} EntriesJoin(a: seq<Waiter>, b: seq<Waiter>, c: ClientId)
    ensures Entries(a + b, c) == Entries(a, c) + Entries(b, c)
    decreases |a|
  {
    if a == [] {
      assert a + b == b;
    } else {
      assert (a + b)[1..] == a[1..] + b;
      EntriesJoin(a[1..], b, c);
    }
  }

  lemma EntriesAround(ws: seq<Waiter>, k: nat, c: ClientId)
    requires k < |ws|
    ensures Entries(ws, c) == Entries(RemoveAt(ws, k), c) + (if Waits(ws[k], c) then 1 else 0)
  {
    EntriesJoin(ws[..k], ws[k..], c);
    EntriesJoin(ws[..k], ws[k + 1..], c);
    assert ws == ws[..k] + ws[k..] && ws[k..][1..] == ws[k + 1..];
  }

  lemma AnswersNext(out: seq<Response>, r: Response, c: ClientId)
    ensures Answers(out + [r], c) == Answers(out, c) + (if r.Given? && r.client == c then 1 else 0)
  {
    assert (out + [r])[..|out|] == out;
  }

  lemma {:induction false} EntriesNone(ws: seq<Waiter>, c: ClientId)
    requires forall i :: 0 <= i < |ws| ==> !Waits(ws[i], c)
    ensures Entries(ws, c) == 0
    decreases |ws|
  {
    if ws != [] {
      EntriesNone(ws[1..], c);
    }
  }

  lemma EntriesSome(ws: seq<Waiter>, k: nat)
    requires k < |ws| && ws[k].queues != []
    ensures Entries(ws, ws[k].client) > 0
  {
    EntriesAround(ws, k, ws[k].client);
  }

  lemma {:induction false} EntriesKept(ws: seq<Waiter>, gone: ClientId, c: ClientId)
    ensures Entries(KeepOthers(ws, gone), c) == if c == gone then 0 else Entries(ws, c)
    decreases |ws|
  {
    if ws != [] {
      EntriesKept(ws[1..], gone, c);
    }
  }

  // ---- What the release loop leaves in the list ----

  /** The inner slice is exact: it lost one entry for each answer. */
  ghost predicate Booked(s: Centre, f: Floor, gone: ClientId, c: ClientId) {
    && f.live <= |f.waiters|
    && Entries(f.waiters[..f.live], c) + Answers(f.out, c)
       == Entries(KeepOthers(s.waiters, gone), c) + Answers(s.out, c)
  }

  /** The list shifted up: the entry before live is now there twice, once inside and once behind. */
  lemma ShiftUpParts(ws: seq<Waiter>, k: nat, live: nat)
    requires k < live <= |ws|
    ensures ShiftUp(ws, k, live)[..live - 1] == RemoveAt(ws[..live], k)
    ensures ShiftUp(ws, k, live)[live - 1..] == ws[live - 1..]
  {
    var inner := RemoveAt(ws[..live], k);
    assert ws[..live][..k] == ws[..k] && ws[..live][k + 1..] == ws[k + 1..live];
    assert ShiftUp(ws, k, live) == inner + ws[live - 1..];
  }

  lemma BookedNext(s: Centre, f: Floor, gone: ClientId, id: JobId, c: ClientId)
    requires Booked(s, f, gone, c)
    ensures Booked(s, ReleaseOne(f, gone, id), gone, c)
  {
    if id in f.store && f.store[id].owner == gone {
      var k := FirstWaiter(f.waiters[..f.live], f.store[id].queue);
      if k < f.live {
        ShiftUpParts(f.waiters, k, f.live);
        EntriesAround(f.waiters[..f.live], k, c);
        AnswersNext(f.out, Gift(f.waiters[k].client, id, f.store[id]), c);
      }
    }
  }

  lemma {:induction false} BookedLoop(s: Centre, gone: ClientId, ids: seq<JobId>, c: ClientId)
    ensures Booked(s, ReleaseAll(OpenFloor(s, gone), gone, ids), gone, c)
    decreases |ids|
  {
    if ids == [] {
      InnerAtStart(s, gone);
    } else {
      BookedLoop(s, gone, ids[..|ids| - 1], c);
      BookedNext(s, ReleaseAll(OpenFloor(s, gone), gone, ids[..|ids| - 1]), gone, ids[|ids| - 1], c);
    }
  }

  /** The state of the waiter array after some rounds of the release loop, compared with its start. */
  ghost predicate Stale(f: Floor, f': Floor) {
    && f.live <= |f.waiters| == |f'.waiters|
    && f.out <= f'.out && f'.live + (|f'.out| - |f.out|) == f.live
    && (forall i :: 0 <= i < f.live ==> f'.waiters[i] in f.waiters[..f.live])
    && f'.waiters[f.live..] == f.waiters[f.live..]
  }

  lemma {:induction false} ReleaseLeavesStale(f: Floor, client: ClientId, ids: seq<JobId>)
    requires f.live <= |f.waiters|
    ensures Stale(f, ReleaseAll(f, client, ids))
    decreases |ids|
  {
    if ids == [] {
      assert forall i :: 0 <= i < f.live ==> f.waiters[..f.live][i] == f.waiters[i];
    } else {
      ReleaseLeavesStale(f, client, ids[..|ids| - 1]);
      StaleNext(f, ReleaseAll(f, client, ids[..|ids| - 1]), client, ids[|ids| - 1]);
    }
  }

  lemma StaleNext(f: Floor, f1: Floor, client: ClientId, id: JobId)
    requires Stale(f, f1)
    ensures Stale(f, ReleaseOne(f1, client, id))
  {
    if id in f1.store && f1.store[id].owner == client {
      var k := FirstWaiter(f1.waiters[..f1.live], f1.store[id].queue);
      if k < f1.live {
        ShiftUpEntries(f1.waiters, k, f1.live);
      }
    }
  }

  /** Every position of the shifted array holds an old entry, its own or the next one's. */
  lemma ShiftUpEntries(ws: seq<Waiter>, k: nat, live: nat)
    requires k < live <= |ws|
    ensures forall i :: 0 <= i < |ws| ==> ShiftUp(ws, k, live)[i] == if k <= i < live - 1 then ws[i + 1] else ws[i]
    ensures ShiftUp(ws, k, live)[live..] == ws[live..]
  {
    var front, middle, back := ws[..k], ws[k + 1..live], ws[live - 1..];
    assert ShiftUp(ws, k, live) == front + middle + back;
    assert |front| == k && |middle| == live - 1 - k;
  }

  /** The shadowed slice: a disconnect never shortens the waiter list. Its inner slice (of length live) loses
      one entry for each job handed to a waiter, while the list keeps a survivor's entry at every place a
      survivor had, and a zero waiter at the departed client's places. */
  lemma DisconnectLeavesStale(s: Centre, client: ClientId)
    ensures var s' := DisconnectStep(s, client);
            var kept := KeepOthers(s.waiters, client);
            var f := ReleaseAll(OpenFloor(s, client), client, s.jobs);
            && |s'.waiters| == |s.waiters| && s.out <= s'.out
            && |kept| - f.live == |s'.out| - |s.out|
            && (forall i :: 0 <= i < |kept| ==> s'.waiters[i] in kept)
            && (forall i :: |kept| <= i < |s'.waiters| ==> s'.waiters[i] == NOBODY)
            && (f.live == |kept| <==> s'.out == s.out)
  {
    var f := OpenFloor(s, client);
    ReleaseLeavesStale(f, client, s.jobs);
    var f' := ReleaseAll(f, client, s.jobs);
    assert f.waiters[..f.live] == KeepOthers(s.waiters, client);
    forall i | f.live <= i < |f'.waiters|
      ensures f'.waiters[i] == NOBODY
    {
      assert f'.waiters[i] == f'.waiters[f.live..][i - f.live] == f.waiters[f.live..][i - f.live];
    }
  }

  /** The last entry that is not the client's names no queue: a zero waiter left behind by an earlier
      disconnect, or a get of no queues. */
  ghost predicate Shielded(ws: seq<Waiter>, gone: ClientId) {
    var kept := KeepOthers(ws, gone);
    kept != [] && kept[|kept| - 1].queues == []
  }

  /** Such an entry at the end of the inner slice stays there, and only its copies are left behind. */
  ghost predicate Blank(f: Floor) {
    && 1 <= f.live <= |f.waiters|
    && forall i :: f.live - 1 <= i < |f.waiters| ==> f.waiters[i].queues == []
  }

  lemma BlankNext(f: Floor, gone: ClientId, id: JobId)
    requires Blank(f)
    ensures Blank(ReleaseOne(f, gone, id))
  {
    if id in f.store && f.store[id].owner == gone {
      var k := FirstWaiter(f.waiters[..f.live], f.store[id].queue);
      if k < f.live {
        assert f.waiters[k].queues != [];
        ShiftUpEntries(f.waiters, k, f.live);
      }
    }
  }

  lemma {:induction false} BlankLoop(f: Floor, gone: ClientId, ids: seq<JobId>)
    requires Blank(f)
    ensures Blank(ReleaseAll(f, gone, ids))
    decreases |ids|
  {
    if ids != [] {
      BlankLoop(f, gone, ids[..|ids| - 1]);
      BlankNext(ReleaseAll(f, gone, ids[..|ids| - 1]), gone, ids[|ids| - 1]);
    }
  }

  /** Shifting never touches the last place of the inner slice as it was at the start. */
  lemma {:induction false} LastStays(f: Floor, gone: ClientId, ids: seq<JobId>)
    requires 1 <= f.live <= |f.waiters|
    ensures var f' := ReleaseAll(f, gone, ids);
            f'.live <= f.live && f'.waiters[f.live - 1] == f.waiters[f.live - 1]
    decreases |ids|
  {
    if ids != [] {
      LastStays(f, gone, ids[..|ids| - 1]);
      var f1, id := ReleaseAll(f, gone, ids[..|ids| - 1]), ids[|ids| - 1];
      if id in f1.store && f1.store[id].owner == gone {
        var k := FirstWaiter(f1.waiters[..f1.live], f1.store[id].queue);
        if k < f1.live {
          ShiftUpEntries(f1.waiters, k, f1.live);
        }
      }
    }
  }

  /** What a disconnect leaves behind the inner slice. */
  function Leftovers(s: Centre, gone: ClientId): seq<Waiter> {
    var f := ReleaseAll(OpenFloor(s, gone), gone, s.jobs);
    f.waiters[f.live..]
  }

  /** The books after a disconnect are out by the entries left over. */
  lemma DisconnectBooks(s: Centre, gone: ClientId, c: ClientId)
    ensures var s' := DisconnectStep(s, gone);
            Entries(s'.waiters, c) + Answers(s'.out, c) + (if c == gone then Entries(s.waiters, c) else 0)
            == Entries(s.waiters, c) + Answers(s.out, c) + Entries(Leftovers(s, gone), c)
  {
    var f := ReleaseAll(OpenFloor(s, gone), gone, s.jobs);
    BookedLoop(s, gone, s.jobs, c);
    EntriesKept(s.waiters, gone, c);
    EntriesJoin(f.waiters[..f.live], f.waiters[f.live..], c);
    assert f.waiters == f.waiters[..f.live] + f.waiters[f.live..];
  }

  /** What a caller can see before a disconnect that keeps the books. */
  ghost predicate Fair(s: Centre, gone: ClientId) {
    Wanted(s, gone) ==> Shielded(s.waiters, gone)
  }

  lemma ShieldedIsBlank(s: Centre, gone: ClientId)
    requires Shielded(s.waiters, gone)
    ensures Blank(OpenFloor(s, gone))
  {
  }

  /** If nobody was answered, or only entries without a queue are copied, no other entry is left over. */
  lemma FairLeavesBlanks(s: Centre, gone: ClientId)
    requires CentreOk(s) && Fair(s, gone)
    ensures forall i :: 0 <= i < |Leftovers(s, gone)| ==> Leftovers(s, gone)[i].queues == []
  {
    if Wanted(s, gone) {
      ShieldedIsBlank(s, gone);
      BlankLoop(OpenFloor(s, gone), gone, s.jobs);
    } else {
      DisconnectAnswers(s, gone);
      DisconnectLeavesStale(s, gone);
    }
  }

  lemma FairLeavesNobody(s: Centre, gone: ClientId, c: ClientId)
    requires CentreOk(s) && Fair(s, gone)
    ensures Entries(Leftovers(s, gone), c) == 0
  {
    FairLeavesBlanks(s, gone);
    EntriesNone(Leftovers(s, gone), c);
  }

  lemma WantedShortens(s: Centre, gone: ClientId)
    requires CentreOk(s) && Wanted(s, gone)
    ensures ReleaseAll(OpenFloor(s, gone), gone, s.jobs).live < |KeepOthers(s.waiters, gone)|
  {
    DisconnectAnswers(s, gone);
    DisconnectLeavesStale(s, gone);
  }

  lemma InTail(ws: seq<Waiter>, live: nat, i: nat)
    requires live <= i < |ws|
    ensures ws[i] in ws[live..]
  {
    assert ws[live..][i - live] == ws[i];
  }

  lemma KeptAtStart(s: Centre, gone: ClientId, i: nat)
    requires i < |KeepOthers(s.waiters, gone)|
    ensures OpenFloor(s, gone).waiters[i] == KeepOthers(s.waiters, gone)[i]
  {
  }

  /** When anybody is answered, the last entry of the others is left over. */
  lemma LastIsLeft(s: Centre, gone: ClientId)
    requires CentreOk(s) && Wanted(s, gone)
    ensures KeepOthers(s.waiters, gone) != []
    ensures var kept := KeepOthers(s.waiters, gone); kept[|kept| - 1] in Leftovers(s, gone)
  {
    var f, n := OpenFloor(s, gone), |KeepOthers(s.waiters, gone)|;
    WantedShortens(s, gone);
    LastStays(f, gone, s.jobs);
    KeptAtStart(s, gone, n - 1);
    var f' := ReleaseAll(f, gone, s.jobs);
    InTail(f'.waiters, f'.live, n - 1);
  }

  lemma UnfairLeavesSomebody(s: Centre, gone: ClientId) returns (c: ClientId)
    requires CentreOk(s) && !Fair(s, gone)
    ensures c != gone && Entries(Leftovers(s, gone), c) > 0
  {
    var kept, left := KeepOthers(s.waiters, gone), Leftovers(s, gone);
    LastIsLeft(s, gone);
    var last := kept[|kept| - 1];
    var k :| 0 <= k < |left| && left[k] == last;
    EntriesSome(left, k);
    assert last in kept;
    c := last.client;
  }

  /** After a disconnect every entry of another client is answered or still in the list, and none is there a
      second time besides, if and only if no listed job of the departing client is in demand or the last entry
      of the others names no queue. */
  lemma DisconnectKeepsBooks(s: Centre, gone: ClientId)
    requires CentreOk(s)
    ensures var s' := DisconnectStep(s, gone);
            (forall c :: c != gone ==>
               Entries(s'.waiters, c) + Answers(s'.out, c) == Entries(s.waiters, c) + Answers(s.out, c))
            <==> Fair(s, gone)
  {
    var s' := DisconnectStep(s, gone);
    if Fair(s, gone) {
      forall c | c != gone
        ensures Entries(s'.waiters, c) + Answers(s'.out, c) == Entries(s.waiters, c) + Answers(s.out, c)
      {
        DisconnectBooks(s, gone, c);
        FairLeavesNobody(s, gone, c);
      }
    } else {
      var c := UnfairLeavesSomebody(s, gone);
      DisconnectBooks(s, gone, c);
    }
  }

  // ---- Whole runs ----

  /** The get names a queue and is answered with a job or parked, not told that there is none. */
  ghost predicate Served(s: Centre, msg: Message) {
    msg.Get? && msg.queues != [] && (msg.wait || Scan(s.queues, msg.queues) != [])
  }

  /** How many such gets the client sent. */
  ghost function Asks(msgs: seq<Message>, c: ClientId): nat {
    if msgs == [] then 0
    else
      var init, last := msgs[..|msgs| - 1], msgs[|msgs| - 1];
      Asks(init, c) + (if last.client == c && Served(Run(init), last) then 1 else 0)
  }

  /** How many waiting gets of the client its own disconnects took back. */
  ghost function Withdrawn(msgs: seq<Message>, c: ClientId): nat {
    if msgs == [] then 0
    else
      var init, last := msgs[..|msgs| - 1], msgs[|msgs| - 1];
      Withdrawn(init, c) + (if last == Disconnected(c) then Entries(Run(init).waiters, c) else 0)
  }

  /** Answers, entries still waiting and entries withdrawn, beyond the gets that were asked. */
  ghost function Surplus(msgs: seq<Message>, c: ClientId): int {
    Answers(Run(msgs).out, c) + Entries(Run(msgs).waiters, c) + Withdrawn(msgs, c) - Asks(msgs, c)
  }

  ghost predicate AllFair(msgs: seq<Message>) {
    forall k :: 0 <= k < |msgs| && msgs[k].Disconnected? ==> Fair(Run(msgs[..k]), msgs[k].client)
  }

  lemma PutBooks(s: Centre, msg: Message, c: ClientId)
    requires msg.Put?
    ensures var s' := Step(s, msg);
            Answers(s'.out, c) + Entries(s'.waiters, c) == Answers(s.out, c) + Entries(s.waiters, c)
  {
    var reply := PutOk(msg.client, s.nextId);
    var k := FirstWaiter(s.waiters, msg.queue);
    AnswersNext(s.out, reply, c);
    if k < |s.waiters| {
      EntriesAround(s.waiters, k, c);
      var gift := Gift(s.waiters[k].client, s.nextId, Job(msg.queue, msg.data, msg.pri, 0));
      AnswersNext(s.out + [reply], gift, c);
    }
  }

  lemma GetBooks(s: Centre, msg: Message, c: ClientId)
    requires CentreOk(s) && msg.Get?
    ensures var s' := Step(s, msg);
            Answers(s'.out, c) + Entries(s'.waiters, c)
            == Answers(s.out, c) + Entries(s.waiters, c) + (if msg.client == c && Served(s, msg) then 1 else 0)
  {
    var scan := Scan(s.queues, msg.queues);
    PickFromIds(s.store, scan);
    PickIsQueued(s, msg.queues);
    if scan != [] {
      var id := Pick(s.store, scan).value;
      AnswersNext(s.out, Gift(msg.client, id, s.store[id]), c);
    } else if msg.wait {
      EntriesJoin(s.waiters, [Waiter(msg.client, msg.queues)], c);
    } else {
      AnswersNext(s.out, NoJob(msg.client), c);
    }
  }

  /** Every message but a disconnect keeps the books. */
  lemma OtherBooks(s: Centre, msg: Message, c: ClientId)
    requires CentreOk(s) && !msg.Disconnected?
    ensures var s' := Step(s, msg);
            Answers(s'.out, c) + Entries(s'.waiters, c)
            == Answers(s.out, c) + Entries(s.waiters, c) + (if msg.client == c && Served(s, msg) then 1 else 0)
  {
    match msg
    case Connected(_) =>
    case Put(_, _, _, _) => PutBooks(s, msg, c);
    case Get(_, _, _) => GetBooks(s, msg, c);
    case Abort(client, _) =>
      AnswersNext(s.out, Done(client), c);
      AnswersNext(s.out, NoJob(client), c);
    case Delete(client, _) =>
      AnswersNext(s.out, Done(client), c);
      AnswersNext(s.out, NoJob(client), c);
  }

  /** The surplus grows by the entries a disconnect leaves over, and by nothing else. */
  lemma SurplusNext(msgs: seq<Message>, msg: Message, c: ClientId)
    requires CentreOk(Run(msgs))
    ensures Surplus(msgs + [msg], c)
            == Surplus(msgs, c) + (if msg.Disconnected? then Entries(Leftovers(Run(msgs), msg.client), c) else 0)
  {
    assert (msgs + [msg])[..|msgs|] == msgs;
    if msg.Disconnected? {
      DisconnectBooks(Run(msgs), msg.client, c);
    } else {
      OtherBooks(Run(msgs), msg, c);
    }
  }

  lemma AllFairNext(msgs: seq<Message>, msg: Message)
    ensures AllFair(msgs + [msg]) <==> AllFair(msgs) && (msg.Disconnected? ==> Fair(Run(msgs), msg.client))
  {
    var more := msgs + [msg];
    assert forall k :: 0 <= k < |msgs| ==> more[k] == msgs[k] && more[..k] == msgs[..k];
    assert more[|msgs|] == msg && more[..|msgs|] == msgs;
  }

  lemma {:induction false} SurplusGrows(msgs: seq<Message>, c: ClientId)
    requires Disciplined(msgs)
    ensures Surplus(msgs, c) >= 0
    ensures AllFair(msgs) ==> Surplus(msgs, c) == 0
    decreases |msgs|
  {
    if msgs != [] {
      var init, last := msgs[..|msgs| - 1], msgs[|msgs| - 1];
      assert msgs == init + [last];
      DisciplinedPrefix(msgs);
      SurplusGrows(init, c);
      NoJobLost(init);
      SurplusNext(init, last, c);
      AllFairNext(init, last);
      if last.Disconnected? && AllFair(msgs) {
        FairLeavesNobody(Run(init), last.client, c);
      }
    }
  }

  lemma UnfairStep(msgs: seq<Message>, gone: ClientId) returns (c: ClientId)
    requires Disciplined(msgs) && CentreOk(Run(msgs)) && !Fair(Run(msgs), gone)
    ensures Surplus(msgs + [Disconnected(gone)], c) > 0
  {
    c := UnfairLeavesSomebody(Run(msgs), gone);
    SurplusGrows(msgs, c);
    SurplusNext(msgs, Disconnected(gone), c);
  }

  lemma {:induction false} UnfairSurplus(msgs: seq<Message>) returns (c: ClientId)
    requires Disciplined(msgs) && !AllFair(msgs)
    ensures Surplus(msgs, c) > 0
    decreases |msgs|
  {
    var init, last := msgs[..|msgs| - 1], msgs[|msgs| - 1];
    assert msgs == init + [last];
    DisciplinedPrefix(msgs);
    NoJobLost(init);
    AllFairNext(init, last);
    if AllFair(init) {
      c := UnfairStep(init, last.client);
    } else {
      c := UnfairSurplus(init);
      SurplusNext(init, last, c);
    }
  }

  /** One service per waiter. In every disciplined run, answers given, entries waiting and entries withdrawn
      never fall short of the gets asked; and they equal them for every client, so that every entry is answered,
      withdrawn or in the list once, if and only if every disconnect of the run was fair. */
  lemma OneServicePerWaiter(msgs: seq<Message>)
    requires Disciplined(msgs)
    ensures forall c :: Surplus(msgs, c) >= 0
    ensures (forall c :: Surplus(msgs, c) == 0) <==> AllFair(msgs)
  {
    forall c
      ensures Surplus(msgs, c) >= 0 && (AllFair(msgs) ==> Surplus(msgs, c) == 0)
    {
      SurplusGrows(msgs, c);
    }
    if !AllFair(msgs) {
      var c := UnfairSurplus(msgs);
    }
  }

  // ---- A surplus is paid out ----

  /** The run goes on without a get or a disconnect, so all jobs given from here on answer waiting gets. */
  ghost predicate Settles(msgs: seq<Message>, last: seq<Message>) {
    && msgs <= last && Disciplined(last)
    && forall k :: |msgs| <= k < |last| ==> !last[k].Get? && !last[k].Disconnected?
  }

  /** From here on the client can be given more jobs than its gets, over the whole run, asked for. */
  ghost predicate Overpaid(msgs: seq<Message>, c: ClientId) {
    exists last :: Settles(msgs, last) && Answers(Run(last).out, c) > Asks(last, c)
  }

  /** After the disconnect some client can be given more jobs than it had gets waiting before, with no new get. */
  ghost predicate OverAnswers(msgs: seq<Message>, gone: ClientId) {
    exists last, c :: Settles(msgs + [Disconnected(gone)], last) &&
      Answers(Run(last).out, c) > Answers(Run(msgs).out, c) + Entries(Run(msgs).waiters, c)
  }

  lemma {:induction false} SettledBooks(msgs: seq<Message>, last: seq<Message>, c: ClientId)
    requires Settles(msgs, last)
    ensures Answers(Run(last).out, c) + Entries(Run(last).waiters, c)
            == Answers(Run(msgs).out, c) + Entries(Run(msgs).waiters, c)
    ensures Asks(last, c) == Asks(msgs, c)
    decreases |last|
  {
    if |last| == |msgs| {
      assert msgs == last;
    } else {
      var init, msg := last[..|last| - 1], last[|last| - 1];
      DisciplinedPrefix(last);
      SettledBooks(msgs, init, c);
      NoJobLost(init);
      OtherBooks(Run(init), msg, c);
    }
  }

  lemma {:induction false} WaitingEntry(ws: seq<Waiter>, c: ClientId) returns (i: nat)
    requires Entries(ws, c) > 0
    ensures i < |ws| && Waits(ws[i], c)
    decreases |ws|
  {
    if Waits(ws[0], c) {
      i := 0;
    } else {
      var j := WaitingEntry(ws[1..], c);
      i := j + 1;
    }
  }

  /** A put to a queue that somebody waits for takes one entry off the list. */
  lemma PutShortens(msgs: seq<Message>, c: ClientId, i: nat)
    requires Disciplined(msgs) && i < |Run(msgs).waiters| && Waits(Run(msgs).waiters[i], c)
    ensures var next := msgs + [Put(c, Run(msgs).waiters[i].queues[0], "", 0)];
            Disciplined(next) && |Run(next).waiters| < |Run(msgs).waiters|
  {
    var s := Run(msgs);
    NoJobLost(msgs);
    assert s.waiters[i] != NOBODY;
    Extend(msgs, s, Put(c, s.waiters[i].queues[0], "", 0));
  }

  /** The client can put jobs until none of its gets is waiting. */
  lemma {:induction false} PutUntilServed(msgs: seq<Message>, c: ClientId) returns (last: seq<Message>)
    requires Disciplined(msgs)
    ensures Settles(msgs, last) && Entries(Run(last).waiters, c) == 0
    ensures forall k :: |msgs| <= k < |last| ==> last[k].Put? && last[k].client == c
    decreases |Run(msgs).waiters|
  {
    if Entries(Run(msgs).waiters, c) == 0 {
      last := msgs;
    } else {
      var i := WaitingEntry(Run(msgs).waiters, c);
      PutShortens(msgs, c, i);
      last := PutUntilServed(msgs + [Put(c, Run(msgs).waiters[i].queues[0], "", 0)], c);
    }
  }

  /** Exactly when a client can be overpaid: when its answers and its waiting entries exceed its gets. */
  lemma OverpaidExactly(msgs: seq<Message>, c: ClientId)
    requires Disciplined(msgs)
    ensures Overpaid(msgs, c) <==> Surplus(msgs, c) > Withdrawn(msgs, c)
  {
    if Overpaid(msgs, c) {
      var last :| Settles(msgs, last) && Answers(Run(last).out, c) > Asks(last, c);
      SettledBooks(msgs, last, c);
    }
    var last := PutUntilServed(msgs, c);
    SettledBooks(msgs, last, c);
  }

  /** If every disconnect of a run was fair, nobody can be overpaid; and if one was not, somebody can, unless
      the surplus was withdrawn again. */
  lemma NobodyOverpaid(msgs: seq<Message>)
    requires Disciplined(msgs)
    ensures AllFair(msgs) ==> forall c :: !Overpaid(msgs, c)
    ensures (forall c :: Withdrawn(msgs, c) == 0) && !AllFair(msgs) ==> exists c :: Overpaid(msgs, c)
  {
    forall c
      ensures AllFair(msgs) ==> !Overpaid(msgs, c)
    {
      OverpaidExactly(msgs, c);
      SurplusGrows(msgs, c);
    }
    if !AllFair(msgs) {
      var c := UnfairSurplus(msgs);
      OverpaidExactly(msgs, c);
    }
  }

  lemma FairPromises(msgs: seq<Message>, gone: ClientId, c: ClientId)
    requires CentreOk(Run(msgs)) && Fair(Run(msgs), gone)
    ensures var next := msgs + [Disconnected(gone)];
            Answers(Run(next).out, c) + Entries(Run(next).waiters, c)
            <= Answers(Run(msgs).out, c) + Entries(Run(msgs).waiters, c)
  {
    RunNext(msgs, Disconnected(gone));
    DisconnectBooks(Run(msgs), gone, c);
    FairLeavesNobody(Run(msgs), gone, c);
  }

  lemma FairNeverOverAnswers(msgs: seq<Message>, gone: ClientId)
    requires CentreOk(Run(msgs)) && Fair(Run(msgs), gone)
    ensures !OverAnswers(msgs, gone)
  {
    if OverAnswers(msgs, gone) {
      var next := msgs + [Disconnected(gone)];
      var last, c :| Settles(next, last) &&
        Answers(Run(last).out, c) > Answers(Run(msgs).out, c) + Entries(Run(msgs).waiters, c);
      SettledBooks(next, last, c);
      FairPromises(msgs, gone, c);
    }
  }

  /** One answer for each waiting get: a disconnect puts it at risk exactly when it is not fair. Then puts alone
      give some client more jobs than it had gets waiting; otherwise no run without a new get or a further
      disconnect does. */
  lemma OneAnswerPerGet(msgs: seq<Message>, gone: ClientId)
    requires Disciplined(msgs + [Disconnected(gone)])
    ensures OverAnswers(msgs, gone) <==> !Fair(Run(msgs), gone)
  {
    var s, next := Run(msgs), msgs + [Disconnected(gone)];
    assert next[..|msgs|] == msgs;
    DisciplinedPrefix(next);
    NoJobLost(msgs);
    if Fair(s, gone) {
      FairNeverOverAnswers(msgs, gone);
    } else {
      var c := UnfairLeavesSomebody(s, gone);
      DisconnectBooks(s, gone, c);
      var last := PutUntilServed(next, c);
      SettledBooks(next, last, c);
    }
  }

  // ---- A waiting get answered twice ----

  lemma {:induction false} ReleaseKeepsLone(f: Floor, client: ClientId, ids: seq<JobId>, w: Waiter)
    requires f.waiters == [w] && f.live <= 1
    ensures ReleaseAll(f, client, ids).waiters == [w]
    decreases |ids|
  {
    if ids != [] {
      ReleaseKeepsLone(f, client, ids[..|ids| - 1], w);
      var f1 := ReleaseAll(f, client, ids[..|ids| - 1]);
      if f1.live == 1 {
        assert ShiftUp([w], 0, 1) == [w];
      }
    }
  }

  /** The client holds a listed job of one of the queues. */
  ghost predicate Holds(s: Centre, client: ClientId, names: seq<string>) {
    exists id :: id in s.jobs && id in s.store && s.store[id].owner == client && s.store[id].queue in names
  }

  lemma LoneAnswered(s: Centre, gone: ClientId, w: Waiter)
    requires CentreOk(s) && s.waiters == [w] && w.client != gone
    ensures Answers(DisconnectStep(s, gone).out, w.client)
            == Answers(s.out, w.client) + (if Holds(s, gone, w.queues) then 1 else 0)
  {
    var f := ReleaseAll(OpenFloor(s, gone), gone, s.jobs);
    BookedLoop(s, gone, s.jobs, w.client);
    DisconnectAnswers(s, gone);
    DisconnectLeavesStale(s, gone);
    assert KeepOthers(s.waiters, gone) == [w];
    if Holds(s, gone, w.queues) {
      var id :| id in s.jobs && id in s.store && s.store[id].owner == gone && s.store[id].queue in w.queues;
      assert InDemand(s, gone, id);
      assert f.live == 0;
    } else {
      assert !Wanted(s, gone);
    }
  }

  /** The shadowed slice: a disconnect leaves the only waiter in the list even when it answers it, which it
      does exactly when the client held a job the waiter asked for; the next put to one of the waiter's
      queues answers it a second time. */
  lemma WaiterServedAgain(s: Centre, client: ClientId, w: Waiter, other: ClientId,
                          queue: string, data: Payload, pri: nat)
    requires s.waiters == [w] && w.client != client && queue in w.queues
    ensures var s1 := DisconnectStep(s, client);
            var s2 := PutStep(s1, other, queue, data, pri);
            && s1.waiters == [w] && s2.waiters == []
            && s2.out == s1.out + [PutOk(other, s1.nextId), Given(w.client, s1.nextId, queue, data, pri)]
            && (CentreOk(s) ==>
                  Answers(s1.out, w.client) == Answers(s.out, w.client) + (if Holds(s, client, w.queues) then 1 else 0))
  {
    assert [w][1..] == [] && KeepOthers([w], client) == [w];
    assert Compacted([w], client) == [w];
    ReleaseKeepsLone(OpenFloor(s, client), client, s.jobs, w);
    assert FirstWaiter([w], queue) == 0 && RemoveAt([w], 0) == [];
    if CentreOk(s) {
      LoneAnswered(s, client, w);
    }
  }

  const TAKEN := Job("q", "x", 0, 1)

  /** Client 1 puts a job and takes it; client 2 waits for another. */
  const WAITING := [Connected(1)] + [Connected(2)] + [Connected(3)] +
                   [Put(1, "q", "x", 0)] + [Get(1, ["q"], false)] + [Get(2, ["q"], true)]

  lemma TwoWaits()
    ensures var s := Run(WAITING);
            && Disciplined(WAITING) && s.clients == {1, 2, 3} && s.waiters == [Waiter(2, ["q"])] && s.nextId == 2
            && s.jobs == [1] && s.store == map[1 := TAKEN] && s.queues == map["q" := []]
            && s.out == [PutOk(1, 1), Given(1, 1, "q", "x", 0)]
  {
    Begin();
    var m := [Connected(1)];
    Extend(m, Run(m), Connected(2));
    m := m + [Connected(2)];
    Extend(m, Run(m), Connected(3));
    m := m + [Connected(3)];
    FirstPut(Run(m), 1);
    Extend(m, Run(m), Put(1, "q", "x", 0));
    m := m + [Put(1, "q", "x", 0)];
    TakeOnly(Run(m), 1, FREE);
    Extend(m, Run(m), Get(1, ["q"], false));
    m := m + [Get(1, ["q"], false)];
    ScanOne(Run(m).queues, "q");
    Extend(m, Run(m), Get(2, ["q"], true));
  }

  lemma HandToTwo(s: Centre)
    requires s.waiters == [Waiter(2, ["q"])] && s.jobs == [1] && s.store == map[1 := TAKEN]
    ensures DisconnectStep(s, 1).out == s.out + [Given(2, 1, "q", "x", 0)]
    ensures DisconnectStep(s, 1).waiters == s.waiters
  {
    var w := Waiter(2, ["q"]);
    assert [w][1..] == [] && KeepOthers([w], 1) == [w] && Compacted([w], 1) == [w];
    assert [1][..0] == [] && [w][..1] == [w] && "q" in w.queues;
    assert ReleaseAll(OpenFloor(s, 1), 1, []) == OpenFloor(s, 1);
    assert ShiftUp([w], 0, 1) == [w];
  }

  lemma PutForTwo(s: Centre)
    requires s.waiters == [Waiter(2, ["q"])] && s.nextId == 2
    ensures PutStep(s, 3, "q", "y", 0).out == s.out + [PutOk(3, 2)] + [Given(2, 2, "q", "y", 0)]
  {
    assert FirstWaiter(s.waiters, "q") == 0 by {
      assert "q" in s.waiters[0].queues;
    }
  }

  /** Client 1 leaves, so client 2 is given its job; a put by client 3 then answers client 2's only get again. */
  lemma AnsweredTwice()
    ensures var msgs := WAITING + [Disconnected(1)] + [Put(3, "q", "y", 0)];
            && Disciplined(msgs)
            && Run(msgs).out == [PutOk(1, 1), Given(1, 1, "q", "x", 0)] + [Given(2, 1, "q", "x", 0)]
                                + [PutOk(3, 2)] + [Given(2, 2, "q", "y", 0)]
  {
    TwoWaits();
    var m := WAITING;
    var s := Run(m);
    HandToTwo(s);
    Extend(m, s, Disconnected(1));
    var s1 := Step(s, Disconnected(1));
    PutForTwo(s1);
    Extend(m + [Disconnected(1)], s1, Put(3, "q", "y", 0));
  }
}
