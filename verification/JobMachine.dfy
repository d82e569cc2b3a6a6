/** The job centre's internal loop as a sequential machine over values: jobs by id, queues of ids. */
module JobMachine {
  import opened Prelude

  type ClientId = nat
  type JobId = nat
  type Payload = string

  /** owner is 0 for nobody. */
  datatype Job = Job(queue: string, data: Payload, pri: nat, owner: ClientId)

  datatype Waiter = Waiter(client: ClientId, queues: seq<string>)

  /** Go's zero Waiter, left behind where slices.DeleteFunc clears the tail. */
  const NOBODY := Waiter(0, [])

  datatype Message =
    | Connected(client: ClientId)
    | Disconnected(client: ClientId)
    | Put(client: ClientId, queue: string, data: Payload, pri: nat)
    | Get(client: ClientId, queues: seq<string>, wait: bool)
    | Abort(client: ClientId, id: int)
    | Delete(client: ClientId, id: int)

  datatype Response =
    | PutOk(client: ClientId, id: JobId)
    | Given(client: ClientId, id: JobId, queue: string, data: Payload, pri: nat)
    | NoJob(client: ClientId)
    | Done(client: ClientId)

  /** The loop's variables. store holds every job object ever made, deleted or not; waiters is the
      outer slice, that is, the backing array up to the outer length. */
  datatype Centre = Centre(
    nextId: nat,
    clients: set<ClientId>,
    waiters: seq<Waiter>,
    queues: map<string, seq<JobId>>,
    jobs: seq<JobId>,
    store: map<JobId, Job>,
    out: seq<Response>)

  const OPENING := Centre(1, {}, [], map[], [], map[], [])

  function Gift(client: ClientId, id: JobId, job: Job): Response {
    Given(client, id, job.queue, job.data, job.pri)
  }

  /** The first waiter that asked for the queue, or the length. */
  function FirstWaiter(ws: seq<Waiter>, queue: string): (k: nat)
    ensures k <= |ws| && (k < |ws| ==> queue in ws[k].queues)
    ensures forall i :: 0 <= i < k ==> queue !in ws[i].queues
  {
    if ws == [] || queue in ws[0].queues then 0 else 1 + FirstWaiter(ws[1..], queue)
  }

  function Without(ids: seq<JobId>, id: JobId): (r: seq<JobId>)
    ensures forall x :: x in r <==> x in ids && x != id
  {
    if ids == [] then []
    else if ids[0] == id then Without(ids[1..], id)
    else [ids[0]] + Without(ids[1..], id)
  }

  // ---- put ----

  function PutStep(s: Centre, client: ClientId, queue: string, data: Payload, pri: nat): Centre {
    var id, job := s.nextId, Job(queue, data, pri, 0);
    var s1 := s.(nextId := id + 1,
                 store := s.store[id := job],
                 jobs := s.jobs + [id],
                 queues := s.queues[queue := At(s.queues, queue) + [id]],
                 out := s.out + [PutOk(client, id)]);
    var k := FirstWaiter(s.waiters, queue);
    if k == |s.waiters| then s1
    else s1.(waiters := RemoveAt(s.waiters, k), out := s1.out + [Gift(s.waiters[k].client, id, job)])
  }

  // ---- get ----

  /** The requested queues one after another: the order of the nested scan. */
  function Scan(queues: map<string, seq<JobId>>, names: seq<string>): seq<JobId> {
    if names == [] then [] else Scan(queues, names[..|names| - 1]) + At(queues, names[|names| - 1])
  }

  function Pri(store: map<JobId, Job>, id: JobId): nat {
    if id in store then store[id].pri else 0
  }

  function Better(store: map<JobId, Job>, best: Option<JobId>, id: JobId): Option<JobId> {
    if best.None? || Pri(store, id) > Pri(store, best.value) then Some(id) else best
  }

  function Pick(store: map<JobId, Job>, ids: seq<JobId>): Option<JobId> {
    if ids == [] then None else Better(store, Pick(store, ids[..|ids| - 1]), ids[|ids| - 1])
  }

  function GetStep(s: Centre, client: ClientId, names: seq<string>, wait: bool): Centre {
    match Pick(s.store, Scan(s.queues, names))
    case None =>
      if wait then s.(waiters := s.waiters + [Waiter(client, names)])
      else s.(out := s.out + [NoJob(client)])
    case Some(id) =>
      if id !in s.store then s
      else
        var job := s.store[id];
        s.(out := s.out + [Gift(client, id, job)],
           store := s.store[id := job.(owner := client)],
           queues := s.queues[job.queue := Without(At(s.queues, job.queue), id)])
  }

  // ---- abort and delete ----

  function AbortStep(s: Centre, client: ClientId, id: int): Centre {
    if id in s.jobs && id in s.store && s.store[id].owner == client then
      var queue := s.store[id].queue;
      s.(queues := s.queues[queue := At(s.queues, queue) + [id]], out := s.out + [Done(client)])
    else s.(out := s.out + [NoJob(client)])
  }

  /** Cut out the first entry. */
  function Drop(ids: seq<JobId>, id: JobId): seq<JobId> {
    var i := IndexOf(ids, id);
    if i == -1 then ids else RemoveAt(ids, i)
  }

  function DeleteStep(s: Centre, client: ClientId, id: int): Centre {
    if id in s.jobs && id in s.store then
      var job := s.store[id];
      var s1 := s.(jobs := Drop(s.jobs, id), out := s.out + [Done(client)]);
      if job.owner == 0 && id in At(s.queues, job.queue) then
        s1.(queues := s.queues[job.queue := Drop(At(s.queues, job.queue), id)])
      else s1
    else s.(out := s.out + [NoJob(client)])
  }

  // ---- disconnect ----

  function KeepOthers(ws: seq<Waiter>, client: ClientId): (r: seq<Waiter>)
    ensures |r| <= |ws|
    ensures forall w :: w in r <==> w in ws && w.client != client
  {
    if ws == [] then []
    else if ws[0].client == client then KeepOthers(ws[1..], client)
    else [ws[0]] + KeepOthers(ws[1..], client)
  }

  /** The backing array after slices.DeleteFunc: the survivors moved up, the rest cleared. The outer
      slice still has its old length; only the shadowing inner slice is shorter. */
  function Compacted(ws: seq<Waiter>, client: ClientId): (r: seq<Waiter>)
    ensures |r| == |ws|
  {
    var kept := KeepOthers(ws, client);
    kept + seq(|ws| - |kept|, _ => NOBODY)
  }

  /** The backing array after append(inner[:k], inner[k+1:]...): positions k.. move up by one and the
      last inner position keeps its old value. */
  function ShiftUp(ws: seq<Waiter>, k: nat, live: nat): (r: seq<Waiter>)
    requires k < live <= |ws|
    ensures |r| == |ws|
  {
    ws[..k] + ws[k + 1..live] + ws[live - 1..]
  }

  /** The variables of the release loop; live is the length of the shadowing inner slice. */
  datatype Floor = Floor(waiters: seq<Waiter>, live: nat, queues: map<string, seq<JobId>>,
                         store: map<JobId, Job>, out: seq<Response>)

  function ReleaseOne(f: Floor, client: ClientId, id: JobId): (r: Floor)
    requires f.live <= |f.waiters|
    ensures r.live <= |r.waiters| == |f.waiters|
  {
    if id !in f.store || f.store[id].owner != client then f
    else
      var job := f.store[id];
      var k := FirstWaiter(f.waiters[..f.live], job.queue);
      if k < f.live then
        var waiter := f.waiters[k];
        f.(waiters := ShiftUp(f.waiters, k, f.live), live := f.live - 1,
           store := f.store[id := job.(owner := waiter.client)],
           out := f.out + [Gift(waiter.client, id, job)])
      else
        f.(store := f.store[id := job.(owner := 0)],
           queues := f.queues[job.queue := At(f.queues, job.queue) + [id]])
  }

  function ReleaseAll(f: Floor, client: ClientId, jobs: seq<JobId>): (r: Floor)
    requires f.live <= |f.waiters|
    ensures r.live <= |r.waiters| == |f.waiters|
  {
    if jobs == [] then f
    else ReleaseOne(ReleaseAll(f, client, jobs[..|jobs| - 1]), client, jobs[|jobs| - 1])
  }

  function OpenFloor(s: Centre, client: ClientId): (f: Floor)
    ensures f.live <= |f.waiters| == |s.waiters|
  {
    Floor(Compacted(s.waiters, client), |KeepOthers(s.waiters, client)|, s.queues, s.store, s.out)
  }

  function DisconnectStep(s: Centre, client: ClientId): Centre {
    var f := ReleaseAll(OpenFloor(s, client), client, s.jobs);
    s.(clients := s.clients - {client}, waiters := f.waiters, queues := f.queues, store := f.store, out := f.out)
  }

  function Step(s: Centre, msg: Message): Centre {
    match msg
    case Connected(client) => s.(clients := s.clients + {client})
    case Disconnected(client) => DisconnectStep(s, client)
    case Put(client, queue, data, pri) => PutStep(s, client, queue, data, pri)
    case Get(client, names, wait) => GetStep(s, client, names, wait)
    case Abort(client, id) => AbortStep(s, client, id)
    case Delete(client, id) => DeleteStep(s, client, id)
  }

  function Run(msgs: seq<Message>): Centre {
    if msgs == [] then OPENING else Step(Run(msgs[..|msgs| - 1]), msgs[|msgs| - 1])
  }
}
