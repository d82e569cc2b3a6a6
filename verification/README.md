# Verified model of the protohackers servers

The repository answers a set of network-programming problems in Go. Two of its servers keep all their state in one
goroutine that handles one message at a time, so each is a sequential state machine over arbitrary interleavings of its
clients' messages. This project models those two machines, the pieces they rest on, and three small servers.

* **Speed tickets** (`TicketDesk`, `TicketMachine`, `TicketTheorems`, `TicketHistory`, `TicketVerdict`, `TicketRota`,
  `TrafficServer`). Cameras report plates out of order; the server keeps a pruned log of readings, marks the days on
  which a plate was ticketed, and hands each ticket to a dispatcher of its road or queues it. `TicketMachine.Step` is one
  message; `TrafficServer` is the goroutine's loop with its maps as fields and its balancers as shared objects, proved to
  take exactly those steps. `TicketReference` is an independent, naive server: it keeps every reading for ever, never
  skips a message, has no day index, and judges a new pair of readings by the tickets issued so far. The running server
  is proved to issue the same tickets and make the same writes in every run. Completeness, soundness, one ticket per day,
  per-road order and the dispatcher index are then theorems about every run. Roles, refusals, the verdict on each report
  and the receiver of each ticket are also told from the history of messages and tickets alone. The speed test itself is
  a parameter (`Meter`), so they hold for the `float32` computation too; `EXACT` instantiates it with exact arithmetic.
* **Round-robin balancer** (`Balancer`). The exact share of every member, exactly when a removal disturbs the turn, and
  the turn order under additions and the removals that do not.
* **Packet codec** (`Codec`, `Packets`, `PacketBytes`). The code generator's template as one encoder and decoder over any
  list of field types, proved self-inverse exactly when lengths fit the length byte, self-delimiting and safe to cut. The
  traffic packets' generated reads and writes are written out field by field and proved to be that encoder and decoder;
  the connection loop is proved to post exactly the packets sent. `PacketBytes` states the opcodes and the layouts byte
  by byte. The posted messages of all connections, however they interleave, form a run of the shape the ticket theorems
  ask for.
* **Job centre** (`JobMachine`, `JobTheorems`, `JobAssignment`, `JobDeletion`, `JobHolding`, `JobWaiters`, `JobHistory`,
  `JobCentre`). Priority queues with owners, waiting clients and recovery on disconnect. `JobMachine` works on ids;
  `JobCentre` is the loop over shared job objects. The slice of waiters that the disconnect branch shadows is modelled as
  the backing array it really edits. Which jobs are live, and who comes first, is also told from the messages.
  Three intended properties fail for unrestricted runs: a job given to one client at a time, a deleted job never given
  again, one answer for each waiting get. Each has a disciplined run in which it fails and an exact condition on the
  state before the step that decides it: for all disciplined runs, some continuation breaks the property if and only if
  the condition fails.
* **Primes, Mob, Means**. Trial division with 64-bit wrap-around, the proxy's token rewriting, and the mean query with its
  32- and 64-bit arithmetic.

Messages reach the machines as an arbitrary sequence. Where a theorem needs it, `Disciplined` says that a client's
messages come after its `connected` and before its `disconnected` (and, in the job centre, that client ids start at 1).
In the machines `out` is what has been written to the clients; `seen` and `issued` are history that no step reads.

## Model

| member | source | states |
|---|---|---|
| TicketReference.Refinement | traffic/traffic.go:240-406 | in every run, for every speed test, the server with early skip, pruned log and break on the first ticket has the same issued tickets, the same writes and the same desk as the naive reference, and its log agrees with the full history on all unticketed days |
| TicketReference.StepSimulates | traffic/traffic.go:170-421 | one message keeps the two servers in agreement |
| TicketReference.ExamineSimulates | traffic/traffic.go:290-405 | scanning the pruned log picks the same earlier reading as scanning the whole history against the issued tickets |
| TicketReference.NoPairOnTicketedDay | traffic/traffic.go:256-265 | the early skip drops only readings that could not have made a ticket |
| TicketReference.FirstHitOfOpen | traffic/traffic.go:290-322 | readings on ticketed days never matter to the scan |
| TicketReference.CleanupKeepsOpen | traffic/traffic.go:396-405 | the clean-up loop, which passes over the element after each removal, drops readings on ticketed days only |
| TicketReference.CleanupDropsHalf | traffic/traffic.go:396-405 | of the readings on ticketed days it drops at least half |
| TicketReference.MarkCovers | traffic/traffic.go:358-369 | the day index is exactly the union of the tickets' spans after a ticket as well |
| TicketTheorems.Completeness | traffic/traffic.go:256-405 | in every reachable state, of any two readings ever received of one plate on one road, in whichever order of time, whose difference of miles times 3600 and difference of timestamps break the later-arriving camera's limit, some day between theirs, in units of 86400 seconds, is covered by a ticket of the plate and recorded |
| TicketTheorems.OneTicketPerDay | traffic/traffic.go:306-322 | no two tickets for one plate have a day of 86400 seconds in common; the index holds a day exactly when some issued ticket covers it |
| TicketVerdicts.Verdict | traffic/traffic.go:240-394 | a camera's report is recorded with the road, mile and limit it registered with; it makes one ticket, with the first reading to have arrived that is too far away for the time and shares no ticketed day, field by field, or none if there is no such reading |
| TicketTheorems.HistoryGrows | traffic/traffic.go:358-394 | ticketed days, issued tickets, readings and writes are never taken back |
| TicketTheorems.Soundness | traffic/traffic.go:290-356 | every ticket states, field by field, two readings really received for its plate on its road, the earlier first, at different miles and over the limit of the camera that reported second |
| TicketTheorems.SeenIsReports | traffic/traffic.go:240-274 | the history of readings is exactly the reports of registered cameras, in arrival order |
| TicketTheorems.Conservation | traffic/traffic.go:221-239 | per road, tickets handed over followed by tickets waiting are the tickets issued, in order; tickets wait only while nobody is registered for the road |
| TicketTheorems.DispatcherIndex | traffic/traffic.go:190-239 | a road's balancer holds exactly the dispatchers registered for the road, once each, and is never empty; nobody is camera and dispatcher at once |
| TicketTheorems.DeliveriesReachDispatchers | traffic/traffic.go:371-390 | in a disciplined run each ticket written goes to a connected, known client registered for the ticket's road |
| TicketRotas.RotaFollowsHistory | traffic/traffic.go:205-419 | in every run a road's balancer is the outcome of the joins, leaves and turns its messages call for, and the tickets handed over when issued go, in order, to the members whose turn it is |
| TicketRotas.FairDelivery | traffic/traffic.go:371-390 | of the tickets issued for a road while its n dispatchers stay the same, each is handed the n-th part, rounded down or up |
| TicketTheorems.ExactTickets | traffic/traffic.go:329-356 | in exact arithmetic a ticket states two received readings between which the limit of the camera that reported second was really broken, and its speed is the true one rounded down if and only if that fits 16 bits |
| TrafficServers.NoWrapAround | traffic/traffic.go:329-344 | in the comparison of any two readings neither unsigned subtraction borrows and the product with 3600 fits 32 bits, so the wraps that `Compare` performs change nothing |
| TicketTheorems.RolesAreFinal | traffic/traffic.go:190-219 | a client keeps its first role and that role's data until it disconnects |
| TicketHistory.RolesFollowHistory | traffic/traffic.go:190-219 | after every run a peer's role is that of its first registration since it last disconnected, with exactly the data of that message, and a peer without one has no role |
| TicketHistory.RefusedExactly | traffic/traffic.go:190-247 | for each message: exactly when a registration comes from a peer with a role, or a plate from no camera, one refusal with the true reason is written and nothing else changes; an accepted registration is recorded; other messages are not refused, and which part of the state each of them may change |
| TicketTheorems.RefusalsAreTrue | traffic/traffic.go:191-247 | every refusal tells its client the truth, and a refused message changes nothing but the reply |
| TicketTheorems.RolesAreOnline | traffic/traffic.go:407-421 | only connected clients are cameras or dispatchers |
| TicketDesk.RegisterDispatcherKeeps | traffic/traffic.go:205-239 | registering keeps the index, the roles and the per-road order of tickets |
| TicketDesk.DisconnectKeeps | traffic/traffic.go:409-420 | a disconnect keeps the index, the roles and the per-road order too |
| TicketDesk.HandOutConserves | traffic/traffic.go:371-390 | a new ticket takes its place at the end of its road's order, handed over or queued |
| TicketDesk.EnlistHands | traffic/traffic.go:229-238 | a new dispatcher gets all waiting tickets of each of its roads once, even if it names a road twice |
| TicketDesk.EnlistRings | traffic/traffic.go:221-227 | registering adds the peer once to the balancer of each of its roads and to no other |
| TicketDesk.HandOutKeeps | traffic/traffic.go:371-390 | handing out a ticket keeps the index and the idle queues |
| TrafficServers.TrafficServer.HandlePlate | traffic/traffic.go:240-405 | the plate branch is the machine's plate step |
| TrafficServers.TrafficServer.ScanSightings | traffic/traffic.go:290-394 | the scanning loop issues the ticket of the first pair found, or nothing |
| TrafficServers.TrafficServer.Compare | traffic/traffic.go:291-356 | computing in 16 and 32 bits, two readings make a ticket exactly when they are a hit, and it is their ticket |
| TrafficServers.TrafficServer.DidReceiveTicket | traffic/traffic.go:306-316 | the day loop finds whether any day of the span is ticketed |
| TrafficServers.TrafficServer.MarkDays | traffic/traffic.go:358-369 | the marking loop records exactly the days of the span |
| TrafficServers.TrafficServer.NextDispatcher | traffic/traffic.go:371-376 | a road with dispatchers yields the one whose turn it is and moves on; one without yields none and changes nothing |
| TrafficServers.TrafficServer.SendOrQueue | traffic/traffic.go:371-390 | the ticket goes to the balancer's next dispatcher, or to the end of its road's queue |
| TrafficServers.TrafficServer.CleanReadings | traffic/traffic.go:396-405 | the in-place loop leaves exactly what the clean-up function says |
| TrafficServers.TrafficServer.HandleDispatcher | traffic/traffic.go:205-239 | the dispatcher branch is the machine's registration |
| TrafficServers.TrafficServer.FlushRoad | traffic/traffic.go:229-238 | the road's waiting tickets are written to the peer in order and the queue emptied |
| TrafficServers.TrafficServer.LeaveRoads | traffic/traffic.go:413-418 | after the loop every balancer is without the peer and the empty ones are gone |
| TrafficServers.TrafficServer.HandleCamera | traffic/traffic.go:190-204 | the camera branch is the machine's step |
| TrafficServers.TrafficServer.HandleDisconnected | traffic/traffic.go:409-419 | the disconnect branch, visiting the roads in any order, is the machine's step |
| TrafficServers.TrafficServer.Serve | traffic/traffic.go:150-424 | after any messages the object is in the state the run theorems speak of |
| Balancers.ApplyKeepsValid | traffic/balancer.go:14-60 | under every operation members stay distinct and the index a valid position, 0 when empty |
| Balancers.ExactShare | traffic/balancer.go:40-47 | the exact number of times k Gets serve the member at each position |
| Balancers.FairShare | traffic/balancer.go:40-47 | with no Add or Remove, k Gets serve each of n members floor(k/n) or ceil(k/n) times |
| Balancers.OncePerTurn | traffic/balancer.go:14-47 | with Adds and guarded Removes of other members interleaved, between two services of one member every other member present throughout is served exactly once |
| Balancers.AddsAreGentle | traffic/balancer.go:14-20 | any run of Adds and Gets meets the hypothesis of OncePerTurn |
| Balancers.RemoveRestarts | traffic/balancer.go:22-34 | a removal takes out exactly the member and always sets the index to 0: its guard never fails |
| Balancers.RemoveKeepsTurn | traffic/balancer.go:22-34 | removing any member, the one next to be served included, leaves the member that is due at the front if and only if the index is 0, or is 1 and the first member goes, or stands on the last member and that one goes |
| Balancers.UnguardedRemoveBreaksTurn | traffic/balancer.go:22-34 | every removal outside that condition breaks a turn: a member is served twice while the one that is due, present throughout, is not served |
| Balancers.RemoveBreaksTurns | traffic/balancer.go:22-34 | a run in which a removal lets one member be served twice while another waits |
| Balancers.Balancer.Get | traffic/balancer.go:40-47 | the member at the index, and the index one on, around the end |
| Balancers.Balancer.Add | traffic/balancer.go:14-20 | a new member goes last; a present one changes nothing |
| Balancers.Balancer.Remove | traffic/balancer.go:22-34 | the member is cut out and the index reset by the source's comparison |
| Balancers.Balancer.Reset | traffic/balancer.go:57-60 | no members and index 0 |
| Balancers.Balancer.ResetIndex | traffic/balancer.go:53-55 | the index is 0, the members stay |
| Balancers.Balancer.Len | traffic/balancer.go:36-38 | the number of members |
| Codec.RoundTrip | genpackets/genpackets.go:123-204 | for every field list, decoding an encoding plus any suffix returns the values and leaves the suffix, if and only if every string and list has at most 255 elements |
| Codec.FieldRoundTrip | genpackets/genpackets.go:130-159 | the same for one field; a longer one never reads back as itself |
| Codec.SelfDelimiting | genpackets/genpackets.go:165-204 | equal byte streams have equal first packets and equal remainders |
| Codec.CutIsShort | reader/reader.go:82-95 | an encoding cut anywhere is recognised as incomplete |
| Codec.BigEndianDigits | genpackets/genpackets.go:148-156 | the most significant byte comes first |
| Codec.WireBack | genpackets/genpackets.go:152-156 | two's complement of 1, 2, 4 or 8 bytes comes back for signed and unsigned values |
| Codec.Marshal | genpackets/genpackets.go:123-163 | the buffer is the opcode and the fields in order |
| Codec.Unmarshal | genpackets/genpackets.go:165-204 | the reader gives the decoded fields and stands just behind them, or fails |
| Codec.Reader.ReadN | reader/reader.go:82-95 | exactly n bytes or an error; after an error nothing is known of the position |
| Codec.Reader.ReadInt | reader/reader.go:76-78 | a big-endian integer of the given width and sign |
| Packets.StreamFraming | traffic/traffic.go:70-135 | the decode loop on concatenated packets yields exactly those packets and goes on with what follows |
| Packets.FramesInjective | traffic/packets_gen.go:13-321 | different packet sequences have different encodings |
| PacketBytes.CameraBytes | traffic/packets.go:13-21 | the bytes 80, then road, mile and limit high byte first, are posted as that camera's registration |
| PacketBytes.PlateBytes | traffic/packets.go:39-46 | the bytes 20, a length, the plate and four bytes of timestamp are posted as that report |
| PacketBytes.DispatcherBytes | traffic/packets.go:23-29 | the bytes 81, a count and two bytes a road are posted as that registration |
| PacketBytes.HeartbeatBytes | traffic/packets.go:62-68 | the byte 40 and four bytes are posted as that request |
| PacketBytes.OtherBytes | traffic/traffic.go:117-129 | any other first byte is posted as a message without a packet, answered with one error frame, and skipped; packets are not answered |
| PacketBytes.ErrorBytes | traffic/traffic.go:119-120 | the reply to it is the byte 10, a length and the text, character by character |
| PacketBytes.TicketBytes | traffic/packets.go:48-60 | a ticket's frame is the byte 21, a length, the plate, and road, mile, timestamp, mile, timestamp and speed in two or four bytes each |
| Packets.CutStream | traffic/traffic.go:70-135 | a connection broken off after any byte has delivered exactly the first n packets, for the largest n whose encodings fit in the bytes that arrived |
| Packets.HandleClient | traffic/traffic.go:57-136 | one connection posts connected, its packets, disconnected, and is written one error frame per invalid opcode byte |
| Packets.NextMessage | traffic/traffic.go:83-129 | one round of the loop; an invalid opcode still posts a message, without a packet |
| Packets.ReadPacket | traffic/traffic.go:84-116 | the packet of each opcode is posted with the fields the codec decodes |
| Packets.ConnectionIsSession | traffic/traffic.go:57-68 | what a connection posts has connected first and disconnected last |
| Packets.InterleavingIsDisciplined | traffic/traffic.go:57-68 | however the connections interleave, the server sees a disciplined run |
| Packets.TicketRoundTrip | traffic/packets_gen.go:194-295 | a dispatcher reads back exactly the ticket sent, if and only if the plate has at most 255 bytes |
| Packets.IAmCameraPacket.Marshal | traffic/packets_gen.go:13-37 | the writes of opcode 0x80, road, mile and limit make the codec's encoding of the three fields |
| Packets.IAmCameraPacket.Unmarshal | traffic/packets_gen.go:39-57 | the three reads give the values the codec decodes from the front of the reader, which then stands behind them |
| Packets.IAmDispatcherPacket.Marshal | traffic/packets_gen.go:59-77 | the writes of opcode 0x81, a length byte and the roads make the codec's encoding of the list |
| Packets.IAmDispatcherPacket.Unmarshal | traffic/packets_gen.go:79-96 | the read of a length byte and so many roads gives the list the codec decodes |
| Packets.ErrorPacket.Marshal | traffic/packets_gen.go:98-120 | the writes of opcode 0x10, a truncated length byte and the message make the codec's encoding |
| Packets.ErrorPacket.Unmarshal | traffic/packets_gen.go:122-139 | the read of a string gives the message the codec decodes |
| Packets.PlatePacket.Marshal | traffic/packets_gen.go:141-168 | the writes of opcode 0x20, plate and timestamp make the codec's encoding of the two fields |
| Packets.PlatePacket.Unmarshal | traffic/packets_gen.go:170-192 | the two reads give the plate and timestamp the codec decodes |
| Packets.TicketPacket.Marshal | traffic/packets_gen.go:194-246 | the writes of opcode 0x21 and the seven fields in order make the codec's encoding of the ticket |
| Packets.TicketPacket.Unmarshal | traffic/packets_gen.go:248-295 | the seven reads in order give the values the codec decodes |
| Packets.WantHeartbeatPacket.Marshal | traffic/packets_gen.go:297-311 | the writes of opcode 0x40 and the interval make the codec's encoding |
| Packets.WantHeartbeatPacket.Unmarshal | traffic/packets_gen.go:313-321 | the read gives the interval the codec decodes |
| Packets.HeartbeatPacket.Marshal | traffic/packets_gen.go:323-332 | opcode 0x41 alone |
| Packets.HeartbeatPacket.Unmarshal | traffic/packets_gen.go:334-337 | nothing is read and nothing can fail |
| JobTheorems.NoJobLost | jobcentre/jobcentre.go:205-366 | in every disciplined run each live job is in the queue bearing its name or owned by a connected client, ids increase along the job list, queues hold their own jobs only, and no waiter is a departed client |
| JobTheorems.DisconnectKeeps | jobcentre/jobcentre.go:205-244 | the release loop with the shadowed waiter slice keeps all of that |
| JobTheorems.PutKeeps | jobcentre/jobcentre.go:245-286 | a put keeps all of that |
| JobTheorems.GetKeeps | jobcentre/jobcentre.go:287-328 | a get keeps all of that |
| JobTheorems.AbortKeeps | jobcentre/jobcentre.go:329-343 | an abort keeps all of that |
| JobTheorems.DeleteKeeps | jobcentre/jobcentre.go:344-366 | a delete keeps all of that |
| JobTheorems.GetOptimal | jobcentre/jobcentre.go:287-328 | a get takes the first job of highest priority over the requested queues and leaves no entry of it in any queue; it answers no-job, or waits, exactly when all of them are empty |
| JobTheorems.PickIsFirstBest | jobcentre/jobcentre.go:288-296 | the scan yields the first job of highest priority |
| JobTheorems.AbortMakesAvailable | jobcentre/jobcentre.go:329-343 | an abort is accepted exactly from the owner of a live job; then the job stands last in its queue, once more than before, and no get of the queue answers no-job or a job of lower priority |
| JobTheorems.ResponsesReachClients | jobcentre/jobcentre.go:230-234 | every response of every step goes to a client still connected, so a response to a departed waiter never happens |
| JobTheorems.DeliveryIntegrity | jobcentre/jobcentre.go:216-316 | the put acknowledgements of every run are exactly one for each put, in order, to its sender, with the number of the put as id; every get response carries the queue, payload and priority of the put of its id, from a queue its receiver asked for |
| JobHistory.LiveIsListed | jobcentre/jobcentre.go:245-366 | in every disciplined run the job list holds exactly the jobs put and not named by a delete since |
| JobHistory.DeleteReply | jobcentre/jobcentre.go:344-366 | a delete writes one reply to its sender: ok exactly for such a job, and then only that job leaves the list and only its entries may leave a queue, owners and data staying; no-job otherwise, and nothing else changes |
| JobHistory.OldestFirst | jobcentre/jobcentre.go:287-296 | in disciplined runs without abort and disconnect a get never passes over an older job of the same queue whose priority is as high |
| JobHistory.EarlierQueueFirst | jobcentre/jobcentre.go:288-296 | a get never passes over a job of a queue it names earlier whose priority is as high |
| JobHistory.OthersKeepOrder | jobcentre/jobcentre.go:207-209 | a disconnect leaves the other clients' waiters in the order in which they came |
| JobHistory.DisconnectServesInOrder | jobcentre/jobcentre.go:205-244 | but for the waiter list it leaves behind, the release loop on the shared array does what a loop does that really removes each waiter it answers: job by job in list order, to the first waiter of another client that asked |
| JobAssignment.ExclusiveHandover | jobcentre/jobcentre.go:205-328 | a job handed over is at once its receiver's and in no queue if and only if it came by a get, or by a disconnect that found it in no queue |
| JobHolding.HeldStays | jobcentre/jobcentre.go:205-366 | such a job stays so, and is handed to nobody, under every message but its holder's disconnect and its holder's abort of it |
| JobHolding.HandoverIsExclusive | jobcentre/jobcentre.go:205-366 | for every disciplined run, aborts and waiting gets included: some continuation gives a job just handed over to another client, while its holder neither disconnects nor aborts it, if and only if it came by a put, or by a disconnect that found it queued; the holder then need not send a single message |
| JobAssignment.PutSharesWithWaiter | jobcentre/jobcentre.go:245-286 | a put's job goes last in its queue and is acknowledged; exactly when a waiter asked for the queue, the one first in the list is answered and leaves it, and the job stays unowned and queued |
| JobAssignment.DeleteLeavesEntry | jobcentre/jobcentre.go:344-366 | a deleted job stays queued exactly when it was owned and queued, or queued twice |
| JobAssignment.ExclusiveAssignment | jobcentre/jobcentre.go:205-366 | without abort and waiting gets each live job is unowned and once in its queue or owned and in no queue, and queues hold live jobs only |
| JobAssignment.HandedOutOnce | jobcentre/jobcentre.go:287-328 | in such runs a job is handed out again only after its holder disconnects |
| JobAssignment.DeletedStaysDeleted | jobcentre/jobcentre.go:344-366 | in such runs a deleted job is never handed out again |
| JobAssignment.TwoHolders | jobcentre/jobcentre.go:268-286 | a run with a waiting get in which two clients receive the same job |
| JobDeletion.GoneStays | jobcentre/jobcentre.go:205-366 | a job that is neither listed nor queued stays so and is handed to nobody, whatever the message |
| JobDeletion.AskUntilGiven | jobcentre/jobcentre.go:287-328 | from any disciplined run with the job in a queue, a connected client that keeps asking for the queue is given the job |
| JobDeletion.DeletionIsFinal | jobcentre/jobcentre.go:344-366 | for every disciplined run, aborts and waiting gets included: some continuation hands a just deleted job out again if and only if, before the delete, it was owned and in its queue, or unowned and in it twice |
| JobDeletion.DeletedComesBack | jobcentre/jobcentre.go:342-366 | a run with an abort in which a deleted job is handed out |
| JobWaiters.DisconnectAnswers | jobcentre/jobcentre.go:205-244 | a disconnect writes nothing if and only if no listed job is owned by the client and asked for by a waiter of another |
| JobWaiters.DisconnectLeavesStale | jobcentre/jobcentre.go:207-221 | a disconnect never shortens the waiter list: it keeps an entry of a survivor at every place a survivor had and a zero waiter at the others, while the inner slice loses one for each answer |
| JobWaiters.DisconnectKeepsBooks | jobcentre/jobcentre.go:207-221 | after a disconnect each other client's answers and entries naming a queue add up to what they were before, so that none is there a second time, if and only if the disconnect has nobody to answer or the last entry of the others names no queue |
| JobWaiters.OneServicePerWaiter | jobcentre/jobcentre.go:205-328 | in every disciplined run answers, entries waiting and entries withdrawn never fall short of the gets naming a queue, and equal them for every client if and only if each disconnect of the run met that condition |
| JobWaiters.PutUntilServed | jobcentre/jobcentre.go:268-286 | from any disciplined run a client can put jobs until none of its entries waits |
| JobWaiters.OverpaidExactly | jobcentre/jobcentre.go:205-328 | some continuation without gets and disconnects gives a client more jobs than its gets of the whole run asked for, if and only if its answers and waiting entries exceed those gets |
| JobWaiters.NobodyOverpaid | jobcentre/jobcentre.go:205-328 | no client can be overpaid if every disconnect met the condition; some client can if one did not and no waiting get was withdrawn |
| JobWaiters.OneAnswerPerGet | jobcentre/jobcentre.go:205-286 | after a disconnect in any disciplined run, some continuation without gets and disconnects gives a client more jobs than it had gets waiting, if and only if the disconnect did not meet the condition |
| JobWaiters.WaiterServedAgain | jobcentre/jobcentre.go:207-221 | a disconnect leaves the only waiter in the list and answers it once exactly when the client held a job of one of its queues; the next put to such a queue answers it again |
| JobWaiters.AnsweredTwice | jobcentre/jobcentre.go:207-286 | a disciplined run in which one waiting get is answered twice |
| JobCentres.JobCentre.HandlePut | jobcentre/jobcentre.go:245-286 | one job object is made, listed, queued and, if a waiter asked, handed over unowned: the machine's put |
| JobCentres.JobCentre.HandleGet | jobcentre/jobcentre.go:287-328 | the chosen object is answered, owned and cut from its queue: the machine's get |
| JobCentres.JobCentre.FindBest | jobcentre/jobcentre.go:288-296 | the nested loops find the machine's pick |
| JobCentres.JobCentre.HandleAbort | jobcentre/jobcentre.go:329-343 | the object goes back to its queue without losing its owner: the machine's abort |
| JobCentres.JobCentre.HandleDelete | jobcentre/jobcentre.go:344-366 | cutting the list by position and the queue by pointer is the machine's delete by id |
| JobCentres.JobCentre.HandleDisconnected | jobcentre/jobcentre.go:205-244 | with the inner waiter slice editing the array the outer one keeps, the release loop is the machine's disconnect |
| JobCentres.JobCentre.Release | jobcentre/jobcentre.go:212-243 | one round of the release loop: the job goes to the first waiter in the inner slice, or back to its queue |
| JobCentres.JobCentre.Serve | jobcentre/jobcentre.go:185-369 | after any messages the object is in the state the run theorems speak of |
| Primes.TrialDivision | primetime/server.go:52-62 | with wrapping squares, a number is called prime if and only if it is prime and the wrapped square of some i up to it exceeds it; for every even n and every n below 3037000499 squared that is: if and only if it is prime |
| Primes.WholeNumbersAdmitted | primetime/server.go:39-40 | the truncation of every float64 is one of those numbers |
| Primes.Answer | primetime/server.go:37-43 | for every float64 the reply is true exactly when the number is an integer and prime, whether the platform saturates an out-of-range conversion or yields the smallest int64 |
| Primes.NoLargeDivisor | primetime/server.go:56-61 | no divisor up to the root means none at all |
| Mob.RewriteTokens | mob/mob.go:151-159 | the rewritten line splits into the line's tokens, each address replaced by the fixed one, the rest unchanged in order |
| Mob.TokenExactly | mob/mob.go:137-158 | a token becomes the fixed address exactly when it is a 7 with 25 to 34 letters or digits behind it, by character code |
| Mob.AsciiSpaces | mob/mob.go:151-153 | among ASCII characters exactly the codes 9 to 13 and 32 separate tokens |
| Mob.NoOtherAddress | mob/mob.go:137-158 | no address but the fixed one survives |
| Mob.RewriteIdempotent | mob/mob.go:16-159 | rewriting twice is rewriting once, since the fixed token is an address itself |
| Mob.FieldsSplitAtSpaces | mob/mob.go:151-153 | the split breaks at every space character and a space-free word is one token, which fixes it |
| Mob.SplitJoin | mob/mob.go:151-159 | splitting undoes joining for nonempty space-free words |
| Mob.Rewrite | mob/mob.go:151-159 | the in-place loop over the words produces that line |
| Means.Session.Query | means/server.go:39-57 | for any number of prices the reply is that of the wrapped exact sum and count of the prices in range; below 2^31 prices it is their mean |
| Means.SelectedExactly | means/server.go:46-51 | a price is counted exactly when its time lies between the two times, both included |
| Means.MeanExactly | means/server.go:52-55 | the mean is the total divided by the count towards zero, for either sign, and 0 of no prices |
| Means.MeanBetween | means/server.go:51-54 | the toward-zero mean lies between any bounds of the selected prices |
| Means.OrderIrrelevant | means/server.go:46-55 | the mean does not depend on the order of insertion |
| Arithmetic.WrapOnce | means/server.go:44-49 | wrapping at every addition is wrapping the exact sum once |
| Means.NoWrap | means/server.go:44-49 | below 2^31 prices the 64-bit sum and the 32-bit count do not overflow |
| Means.Session.Insert | means/server.go:34-38 | the price is appended |

## Left out

- Sockets, accept loops, goroutine start-up and shutdown, logging, flags and `main`; write failures are ignored by the source and a write is an event here.
- The wording of refusals to cameras and dispatchers, and the writing of a ticket's frame: a refusal is an event with its reason, a hand-over an event with its ticket.
- Heartbeats: a want-heartbeat message leaves the ticketing state unchanged; tickers and their cancellation are not part of this model.
- Rounding of the `float32` speed and its conversion to 16 bits: the speed test and the reported speed are parameters of the run theorems; `EXACT` covers exact arithmetic, with the report taken modulo 2^16 where it does not fit.
- Codec.Unmarshal: where the reader stands after a failed read is not stated, because the connection is closed.
- Codec.Reader.ReadN: likewise leaves open how much a short read consumed.
- List types other than `[]uint16`: the template reads every list into a `[]uint16`, so they do not compile. Nor do structs with two string fields, for which it declares `n` twice in one block; the codec's theorems hold of their field lists too.
- The generator's syntax-tree walk and file output.
- Exclusive assignment, one service per waiter and deleted jobs staying deleted are not claimed for every run of the job centre, where they fail; see the counterexample runs and exact conditions above.
- Conversions of an out-of-range float64 other than the saturating one and the one to the smallest int64, which Go would also allow.
- JSON decoding in the job centre and the prime server: requests arrive decoded, payloads are opaque text.
- Reading of the means server's bytes, whose errors the source ignores.
- Invalid UTF-8 in the proxy's lines, and the trimming of the line before the rewrite.
- The chat, key-value and echo servers, whose claims are easier members.
