# Termchat: verified models of its replicated and asynchronous parts

Termchat is a terminal messenger: a client, a protocol crate and a relay server. This project models, in Dafny, the
parts of it whose correctness depends on many steps taken in many orders, and proves what they guarantee and where
they do not.

| files | component |
|---|---|
| `Lww`, `Tasks`, `Convergence`, `Joins`, `DeliveryOrder`, `Snapshots`, `TaskManager`, `PeerSystem` | shared task lists of last-write-wins registers, replicated by broadcast and by snapshot |
| `Chat`, `ChatProtocol` | the chat manager's send and receive pipelines, and two managers over a faulty network |
| `History` | the history writer that queues failed writes and retries them |
| `RelayStore`, `RelayState`, `Relay`, `RelayFlow`, `RelayReorder`, `RelayOrder` | the relay: queues, registry, connections, routing, order of delivery |
| `Net`, `Backoff`, `Hybrid` | the client's supervisor and command handler, reconnect delays, the two-transport sender |
| `Rooms`, `AgentIds`, `Codec` | room membership, agent ids, length-prefixed frames |
| `Outcomes`, `Counting`, `Arithmetic` | option and result types, facts about lists and about products, that the others share |

Objects that the program updates in place are classes here, their methods specified by functions of the old state;
the theorems are about those functions. Where tasks or threads interleave, a `Step` datatype and a `Next` function
describe one step each, and the theorems quantify over every run. A step ends wherever an await lets another task see or
change the state in question.

## What is proved

- **Tasks.** Replicas converge: what a replica holds depends only on the set of register writes it has received. In a
  system of any number of peers whose local writes are stamped above the register they overwrite, stamps determine
  values, so the premise of convergence is itself an invariant, and any two peers can make a room equal by exchanging
  snapshots. For any set of messages at all, the order of delivery is irrelevant exactly when messages that could each
  decide a register decide it alike. For messages that write a register at most once, and use the stub's stamp only
  for a stub, that means that the newest writes agree (`DecidedIffNewestAgree`); the broadcasts of a run are of that
  kind.
- **Chat.** A message shown as Delivered was accepted by the other side, and stays Delivered, although recording a
  message as Sent may come after its acknowledgement. Among N
  acceptances an id occurs at most ceil(N / limit) times, and a repeat is refused exactly when it is among the acceptances
  since the seen-set was last cleared.
- **History.** Whatever is requested and however the store fails, each write has been performed once or is held for
  retry, and the store is what the performed ones come to, in their order. For what the chat pipeline
  requests, which is proved of its runs, no write is lost either, and two clean passes over the queue leave what a store
  that never failed would hold. When one pass is enough, and when a pass undoes something, is known exactly.
- **Relay.** In every interleaving each accepted payload is in exactly one place and is delivered at most once, from
  the id its submitter registered with. Delivery from one sender to one recipient keeps the order of submission across
  all reconnections of both, under three conditions on these two peers alone; for each condition there is a run that
  meets the other two and reorders. Atomic routing and no overlapping registrations of an id are a special case.
- **Client.** Each text is transmitted at most once and every loss has a named cause; the branch that loses messages
  while draining cannot be reached.
- **Rooms, ids, frames.** Capacities and uniqueness in every reachable state; members as replayed from the events; the
  search for a free agent id ends; a stream of frames decodes to the list it was made from.

## Where the code and its documentation differ

The model follows the code.

- The merge is documented as commutative (`termchat/src/tasks/merge.rs:3-5`, `termchat-proto/src/task.rs:54`). It is so
  exactly where equal stamps mean equal values (`MergeCommutesIff`); `TiedStampsDiverge` is an input that shows it.
- `apply_field_update` is documented to return true when the update is newer; it also does for an equal stamp, when it
  changes nothing (`FieldUpdateIsMerge`).
- A local edit overwrites its register whatever the stamps say, so an editor with a slow clock disagrees with everyone
  it broadcasts to (`EditIsDeliveryIff`, `StaleClockDiverges`).
- An acknowledgement that arrives before its message is recorded as Sent is ignored, and the message stays Sent
  (`AckCountsIffRecorded`, `EarlyAckIsLost`).
- The comment on the seen-set says that half of it is evicted; the code clears all of it
  (`termchat/src/chat/receive.rs:80-82`). So an id can be accepted again right after another one (`RepeatAfterClear`);
  `DedupBound` and `RepeatRefusedIff` say when.
- A retried history write can undo a later one, exactly when the last queued write for an entry asks for something
  other than the entry has (`CleanPassKeepsIff`, `RetryUndoesIff`, `RetryCanUndo`).
- One clean pass over the history queue is enough exactly when no update waits ahead of the save it needs
  (`OnePassSettlesIff`); two failures can queue them that way round (`QueueCanBeOutOfOrder`, `OnePassMayNotSettle`).
- Texts stay queued while the client is connected and idle exactly when one was queued after the queue was last taken
  (`StrandedIff`; `RefusedTextIsStranded` and `TextCanBeStranded` are runs that do so).
- A backoff whose delay and jitter exceed the longest duration panics; when that can happen is known exactly
  (`NoSleepOverflowsIff`, with an instance in `SleepCanOverflow`).
- Flap detection logs that the backoff will not reset, but each reconnect starts again from attempt 0
  (`termchat/src/net.rs:437-445`); the model has no flap state.
- An overlong agent id is cut after it is trimmed, so the result may end in a blank (`RevalidationStableIff`;
  `RevalidationCanChange` is such an id).
- No operation of the room manager ever gives up the local user's admin role, so its not-admin errors cannot occur in
  a reachable state (`MembersAreReplayed`).

## Conventions

- Payloads, titles, ids and authors are strings of characters. Strings are ordered by code point, which for UTF-8 is the
  byte order that the program compares by.
- Timestamps are unbounded naturals, since the program only compares them. Clock readings, fresh ids and message ids
  are inputs; where freshness matters it is a stated condition (the task is not yet present, the id not used before).
- The store, the transports and the connection attempts are represented by their outcomes, chosen freely at each step.
  A store that fails is taken to leave its contents unchanged, and a failed send is counted as not transmitted. In
  `ChatProtocol` a send that reports failure may nevertheless have let the message out.
- In the relay model a payload is anything routed to a peer: a client payload or a routed room message. Only the former
  has a size limit.
- Durations are in nanoseconds, bounded as the program's duration type is.
- The serializer is any pair of functions in which decoding undoes encoding.

## Model

| member | source | states |
|---|---|---|
| Lww.MergeCommutesIff | termchat/src/tasks/merge.rs:33-41 | merging two registers gives the same either way round exactly when equal stamps carry equal values |
| Lww.MergeAssociative | termchat/src/tasks/merge.rs:33-41 | merging is associative and idempotent, without any condition |
| Lww.MergeIsUpperBound | termchat/src/tasks/merge.rs:33-41 | the result is one of the two registers and is below neither |
| Lww.LessTrichotomy | termchat/src/tasks/merge.rs:34-35 | timestamp, then author, is a strict total order on stamps |
| Lww.LessTransitive | termchat/src/tasks/merge.rs:34-35 | the stamp order is transitive |
| Lww.StringLessIff | termchat/src/tasks/merge.rs:35-35 | authors are compared at their first difference, where one ends or has the smaller character |
| Tasks.MergeTaskList | termchat/src/tasks/merge.rs:57-65 | the loop over the remote tasks performs the fold whose registers `ListReflects` and `ListingJoin` characterise |
| Tasks.FieldUpdateIsMerge | termchat/src/tasks/merge.rs:70-100 | an update merges its own register, leaves the other two and the id, and reports true exactly when the stored register is not newer |
| Tasks.ApplyKeepsRest | termchat/src/tasks/manager.rs:161-199 | no message changes the creation time, creator or room of a task that is there, or anything of a task it does not mention; any message but a request opens its room and no other |
| Tasks.StubIsCreated | termchat/src/tasks/manager.rs:170-189 | a task first heard of by a field update is created with the update's stamp, its other registers at the bottom |
| Convergence.PutReflects | termchat/src/tasks/merge.rs:46-65 | merging or adding one task keeps the characterisation of a replica by the writes it received |
| Convergence.ListReflects | termchat/src/tasks/manager.rs:191-194 | a full snapshot adds exactly its tasks' register writes to those the replica reflects |
| Convergence.FieldReflects | termchat/src/tasks/manager.rs:163-190 | a field update, with or without a stub, adds exactly its one write |
| Convergence.ApplyAllReflects | termchat/src/tasks/manager.rs:161-199 | after any messages each register is a stub's or a received write, none is older than a received write, and the tasks are those mentioned |
| Convergence.ReflectsUnique | termchat/src/tasks/manager.rs:161-199 | where stamps determine values, replicas that reflect the same writes hold the same tasks and registers |
| Convergence.StrongConvergence | termchat/src/tasks/manager.rs:161-199 | receiving the same writes in any order, repetition and mix of updates and snapshots gives the same tasks and registers |
| Convergence.TiedStampsDiverge | termchat/src/tasks/merge.rs:34-40 | two messages under one stamp, delivered both ways round, leave different values |
| Joins.ApplyIsJoin | termchat/src/tasks/manager.rs:161-199 | receiving any message is joining, task by task and register by register, with what that message leaves in an empty replica |
| Joins.JoinedIsMergeIff | termchat/src/tasks/manager.rs:177-189 | the join is the merge with a stub for an absent task exactly unless it takes over another value under the stub's stamp |
| DeliveryOrder.OrderIsIrrelevantIff | termchat/src/tasks/manager.rs:161-199 | for any set of messages, all orders of delivery agree exactly when messages that, delivered alone, leave a register none leaves newer all leave it the same |
| DeliveryOrder.UndecidedDiverges | termchat/src/tasks/merge.rs:34-40 | two such messages that differ are told apart by which comes first |
| DeliveryOrder.LeaderStays | termchat/src/tasks/manager.rs:161-199 | a register left by such a message stays so through any of the others |
| DeliveryOrder.FirstLeaderDecides | termchat/src/tasks/manager.rs:161-199 | whatever the messages and their order, a register ends up as the first such message leaves it |
| Snapshots.SnapshotIsJoin | termchat/src/tasks/manager.rs:222-231 | receiving a room's snapshot unites the tasks and joins the registers pointwise in any listing order, leaves other rooms alone, and is the plain merge exactly unless a task new to the receiver has another value under the stub's stamp |
| Snapshots.ListingJoin | termchat/src/tasks/merge.rs:57-65 | merging any list of a replica's tasks joins exactly the listed tasks |
| Snapshots.ExchangeConvergesIff | termchat/src/tasks/manager.rs:222-231 | a two-way exchange makes the task ids equal, and the registers equal exactly when registers that both held under one stamp had one value |
| Snapshots.MessageKeepsRegister | termchat/src/tasks/manager.rs:161-199 | a message with no newer write to a register leaves it unchanged |
| Snapshots.DeletedStaysHidden | termchat/src/tasks/manager.rs:142-148 | no deliveries with status stamps up to the deleting write's bring a deleted task back |
| Snapshots.NewcomerHidesIff | termchat/src/tasks/manager.rs:205-216 | a replica built from any messages hides a task exactly when the first message that leads in its status would, alone, leave it deleted |
| PeerSystem.PeerHidesIff | termchat/src/tasks/manager.rs:205-216 | in every run a peer hides a task it holds exactly when a newest of the status writes it has got deletes it |
| TaskManagers.EditIsDeliveryIff | termchat/src/tasks/manager.rs:92-109 | a local edit agrees with delivering its own broadcast exactly when its stamp is above the register's or it changes nothing |
| TaskManagers.CreateIsDelivery | termchat/src/tasks/manager.rs:54-85 | creating a task is the same as receiving the created task |
| TaskManagers.CreatedTask | termchat/src/tasks/manager.rs:54-85 | a created task is open, unassigned and visible under its title, every register stamped with the clock and the local peer; it is what is stored, returned and broadcast, and nothing else changes |
| TaskManagers.CreateFailsIff | termchat/src/tasks/manager.rs:59-64 | creation fails exactly for an empty title or one beyond 256 characters, each with its error, and then changes nothing |
| TaskManagers.EditedTask | termchat/src/tasks/manager.rs:92-134 | an edit overwrites its own register and broadcasts that; all else stays; a missing room or task is its own error and changes nothing |
| TaskManagers.TaskManager.CreateTask | termchat/src/tasks/manager.rs:54-85 | the new store, the task and the broadcast, or the title's error and no change |
| TaskManagers.TaskManager.EditTask | termchat/src/tasks/manager.rs:236-246 | the register is overwritten and broadcast, or room or task not found and no change |
| TaskManagers.TaskManager.UpdateStatus | termchat/src/tasks/manager.rs:92-109 | a status edit stamped with the clock and the local peer |
| TaskManagers.TaskManager.UpdateAssignee | termchat/src/tasks/manager.rs:117-134 | an assignee edit stamped with the clock and the local peer |
| TaskManagers.TaskManager.DeleteTask | termchat/src/tasks/manager.rs:142-148 | deletion is a status edit: the task stays present and is no longer visible |
| TaskManagers.TaskManager.ApplyRemote | termchat/src/tasks/manager.rs:161-199 | the store changes as the message's application function says, for which convergence is proved |
| TaskManagers.TaskManager.GetTasks | termchat/src/tasks/manager.rs:205-216 | exactly the tasks not deleted, each once, ordered by creation time |
| TaskManagers.TaskManager.BuildFullState | termchat/src/tasks/manager.rs:222-231 | nothing for a room without tasks, else every task once, tombstones included |
| PeerSystem.PeersConverge | termchat/src/tasks/manager.rs:54-199 | in every run, peers that have received every broadcast hold identical tasks and registers |
| PeerSystem.StampsDetermineValues | termchat/src/tasks/manager.rs:54-199 | in every run, no two different values share a task, field, timestamp and author |
| PeerSystem.StampsOnlyGrow | termchat/src/tasks/manager.rs:54-199 | no step lowers any stored stamp of any peer |
| PeerSystem.StepKeepsInv | termchat/src/tasks/manager.rs:54-199 | every create, edit, snapshot and delivery keeps the invariant behind these three |
| PeerSystem.StoresAreSound | termchat/src/tasks/manager.rs:54-199 | in every run every store files tasks by id and has the stub's stamp only on the stub's value |
| PeerSystem.PeersExchange | termchat/src/tasks/manager.rs:222-231 | at any moment of any run a two-way exchange leaves any two peers with equal tasks and registers in the room |
| PeerSystem.PeersMerge | termchat/src/tasks/manager.rs:222-231 | at any moment of any run a peer's snapshot merges into another peer's registers pointwise, stubs standing for absent tasks |
| PeerSystem.BroadcastsArePlain | termchat/src/tasks/manager.rs:54-199 | in every run a broadcast writes a register at most once, and the newest writes to each register agree |
| PeerSystem.BroadcastOrderIsIrrelevant | termchat/src/tasks/manager.rs:161-199 | any two orders of delivering the same broadcasts of a run, repetitions included, build the same tasks and registers |
| PeerSystem.StaleClockDiverges | termchat/src/tasks/manager.rs:100-103 | with a clock not past the register, editor and receiver end up with different values |
| History.NoMessageIsLost | termchat/src/chat/history.rs:157-262 | whatever is requested, under any failures and interleavings, the message of each requested write is in the store or the write is held for retry |
| History.EachWritePerformedOnce | termchat/src/chat/history.rs:157-262 | whatever is requested and whatever fails, each request has been performed once or is held, and the store is what the performed writes come to in their order |
| History.ReflectedIff | termchat/src/chat/history.rs:157-262 | a requested write is in effect exactly when the last writes performed for its message agree with it |
| History.NothingIsLost | termchat/src/chat/history.rs:157-262 | when updates are only to Delivered and only inbound messages are saved twice, each requested write is in effect or held for retry |
| History.TwoPassesSettle | termchat/src/chat/history.rs:226-262 | two clean passes leave what such requests amount to, and queued exactly the updates for messages never saved |
| History.AgreesWithNeverFailing | termchat/src/chat/history.rs:157-262 | for such requests, after two clean passes the store equals that of a writer whose store never failed |
| History.StepKeepsInv | termchat/src/chat/history.rs:157-262 | each request, drain, retry and requeue step keeps the invariant |
| History.FlushStep | termchat/src/chat/history.rs:235-252 | a pass over the queue is requesting its first write again and flushing the rest |
| History.PassKeepsOrder | termchat/src/chat/history.rs:235-252 | whatever fails, what a pass queues again is part of what it took, in the same order |
| History.RefusedPass | termchat/src/chat/history.rs:226-252 | a pass that the store refuses altogether changes neither store nor queue |
| History.CleanPassKeepsIff | termchat/src/chat/history.rs:226-262 | a clean pass over any queue leaves every entry as it was exactly when the last queued write for it asks for the status it has and the last queued save carries the message it has |
| History.RetryUndoesIff | termchat/src/chat/history.rs:182-252 | a failed update, a successful one and a retry: the retry undoes the second exactly when they ask for different statuses |
| History.RetryCanUndo | termchat/src/chat/history.rs:235-252 | a retried update to Sent undoes a later one to Delivered |
| History.LeftQueuedIff | termchat/src/chat/history.rs:226-252 | a clean pass queues again exactly the updates whose message is neither stored nor saved ahead of them |
| History.OnePassSettlesIff | termchat/src/chat/history.rs:226-262 | with nothing in progress one clean pass is enough exactly when every such update is for a message never saved |
| History.QueueCanBeOutOfOrder | termchat/src/chat/history.rs:157-209 | a run that queues an update ahead of the save it needs |
| History.OnePassMayNotSettle | termchat/src/chat/history.rs:226-262 | from there one clean pass stores Sent although the delivery is logged |
| History.InMemoryStore.Write | termchat/src/chat/history.rs:322-340 | a save replaces the entry, an update needs an entry to change |
| History.ResilientHistoryWriter.SaveMessage | termchat/src/chat/history.rs:157-177 | a failed save is queued, a successful one is not |
| History.ResilientHistoryWriter.UpdateStatus | termchat/src/chat/history.rs:182-209 | a failed status update is queued, a successful one is not |
| History.ResilientHistoryWriter.FlushPending | termchat/src/chat/history.rs:226-262 | each queued write is tried once in order, failures requeue in order, and the result is the drop in queue length |
| Chat.ReceiveObserves | termchat/src/chat/receive.rs:70-85 | a chat message is accepted and acknowledged exactly when its id is not in the seen-set |
| Chat.ReceiveRequests | termchat/src/chat/receive.rs:109-158 | an admitted message requests its save as Delivered, an acknowledgement its update to Delivered, anything else nothing |
| Chat.ReceiveReplies | termchat/src/chat/receive.rs:50-129 | exactly an admitted message is acknowledged, exactly a payload that does not decode is rejected |
| Chat.ReceiveReturns | termchat/src/chat/receive.rs:35-65 | the envelope exactly for what decodes within the size limit, and for each failure its own error |
| Chat.ReceiveChanges | termchat/src/chat/receive.rs:71-152 | an admitted id is seen, and waits with its sender if the ack fails; a known acknowledged message becomes Delivered; nothing else changes |
| Chat.AcceptedAreSaved | termchat/src/chat/receive.rs:71-129 | over any run of receives there is one save per acceptance, in order, and every request is for a message or an acknowledgement that arrived |
| Chat.AcksAreRequested | termchat/src/chat/receive.rs:146-158 | over any run of receives every acknowledgement that arrives requests its update to Delivered |
| Chat.SendComesTo | termchat/src/chat/send.rs:36-86 | a valid message that is transmitted is Sent, saved so and reported so; each failure is reported as its own and leaves no trace |
| Chat.AsciiLength | termchat-proto/src/message.rs:229-245 | plain text is valid up to 65536 characters; any other character takes more than one byte |
| Chat.ReceiveAllObserves | termchat/src/chat/receive.rs:35-129 | over any run of receives, the ids accepted are those that duplicate detection admits, in order |
| Chat.DedupBound | termchat/src/chat/receive.rs:71-129 | over any run of receives the seen ids are those accepted since the last clear, finished epochs have exactly as many distinct acceptances as the limit, and among N acceptances an id occurs at most ceil(N / limit) times |
| Chat.RepeatRefusedIff | termchat/src/chat/receive.rs:71-85 | after any run of receives the next chat message is refused exactly when its id is among the acceptances since the last clear |
| Chat.RepeatAfterClear | termchat/src/chat/receive.rs:80-84 | with limit 3, the ids a, b, c, d, c are all accepted |
| Chat.EveryIdAccepted | termchat/src/chat/receive.rs:71-85 | over any run of receives every chat message that arrives has its id accepted at least once |
| Chat.OneAckPerAcceptance | termchat/src/chat/receive.rs:114-129 | each acceptance yields exactly one ack, sent or pending |
| Chat.ChatManager.ReceiveOne | termchat/src/chat/receive.rs:35-210 | the returned result, the reply, the history writes and the new state, for every input and error |
| Chat.ChatManager.SendMessage | termchat/src/chat/send.rs:36-86 | invalid, unencodable, unencryptable and untransmitted messages leave no trace; a transmitted one is Sent and saved |
| Chat.ChatManager.SendWithRetry | termchat/src/chat/send.rs:95-123 | attempts go on exactly while the transport fails, up to the limit, and the state is that of the last attempt alone |
| ChatProtocol.DeliveredMeansAccepted | termchat/src/chat/receive.rs:146-152 | in every run, a message the sender shows as Delivered was accepted by the receiver |
| ChatProtocol.DeliveredNeverReverts | termchat/src/chat/send.rs:64-71 | a Delivered entry stays Delivered in every continuation |
| ChatProtocol.AckCountsIffRecorded | termchat/src/chat/receive.rs:146-152 | an ack makes its message Delivered exactly when the sender has recorded it |
| ChatProtocol.EarlyAckIsLost | termchat/src/chat/send.rs:64-71 | from any state, an ack overtaking the recording leaves an accepted message Sent |
| ChatProtocol.SendIsThreeSteps | termchat/src/chat/send.rs:60-77 | one call of send is transmitting, recording and saving with nothing in between; a failed one leaves no trace |
| ChatProtocol.HistoryIsDisciplined | termchat/src/chat/receive.rs:112-158 | in every run, each end requests updates only to Delivered, saves its own messages once, and a repeated save is of the same inbound message |
| ChatProtocol.NothingUnsaved | termchat/src/chat/receive.rs:109-129 | in every run history has been asked to save every accepted message as Delivered, and every message shown as sent as Sent, but for those about to be saved |
| ChatProtocol.HistoryOfAnEndSettles | termchat/src/chat/history.rs:157-262 | so the history of an end loses none of its requests and settles as one that never failed |
| ChatProtocol.StepKeepsInv | termchat/src/chat/receive.rs:70-152 | transmitting, recording, saving and delivering keep the invariant at both ends |
| RelayStore.QueueIsWindow | termchat-relay/src/store.rs:66-95 | a peer's queue is the last cap of the items enqueued since its last drain, in order, cap 0 included |
| RelayStore.CountIsLengthIff | termchat-relay/src/store.rs:79-83 | the 32-bit count is the queue length exactly when that fits, as any cap below 2^32 ensures |
| RelayStore.MessageStore.EnqueueFor | termchat-relay/src/store.rs:68-84 | append, evict the oldest beyond the cap, return the truncated length; other queues unchanged |
| RelayStore.MessageStore.Drain | termchat-relay/src/store.rs:89-95 | returns the peer's whole queue and removes only that |
| RelayStore.MessageStore.QueueLen | termchat-relay/src/store.rs:97-103 | the length of the peer's queue modulo 2^32, and the length itself exactly when it fits |
| RelayStates.RelayState.RegisterPeer | termchat-relay/src/relay.rs:71-78 | the id maps to the new channel and the replaced one is returned |
| RelayStates.RelayState.UnregisterPeer | termchat-relay/src/relay.rs:81-84 | the id is removed whichever channel it stands for |
| RelayStates.RelayState.SendToPeer | termchat-relay/src/relay.rs:537-543 | exactly the peer's own open channel gets the frame, if it encodes |
| RelayStates.RelayState.Route | termchat-relay/src/relay.rs:501-518 | the registry, the store and every channel after routing, for every state of the recipient |
| RelayStates.RelayState.RouteRoomToPeer | termchat-relay/src/relay.rs:444-489 | a room message that encodes is routed without acknowledgement; one that does not is refused and its sender told |
| RelayStates.RelayState.RoutePayload | termchat-relay/src/relay.rs:501-534 | the same, and the sender's channel gets the acknowledgement with the queue's length exactly when the recipient was not registered |
| RelayStates.RelayState.HandleBinaryMessage | termchat-relay/src/relay.rs:253-318 | a message is refused exactly if it is an oversized payload or a room message that does not encode, which changes nothing but that its sender is told; any other is routed under the registered id, whatever sender it claims |
| RelayStates.PayloadIsAcknowledged | termchat-relay/src/relay.rs:501-534 | a payload for a peer that is not registered puts exactly one acknowledgement, with the length of the queue, into its sender's open channel; one for a registered peer goes into that peer's open channel; no other channel gets anything |
| RelayStates.PayloadIsStored | termchat-relay/src/relay.rs:501-534 | a payload is stored exactly when its recipient is not registered or its channel is gone, which also unregisters it |
| RelayStates.SentFrames | termchat-relay/src/relay.rs:537-543 | an acknowledgement or a refusal goes to the peer's own registered open channel alone |
| RelayStates.RoutingDepicts | termchat-relay/src/relay.rs:501-534 | routing in one go changes registry, channels and queues just as it does in the step model |
| RelayStates.PayloadDepicts | termchat-relay/src/relay.rs:501-534 | so does routing a payload, its acknowledgement included |
| Relay.EachPayloadInOnePlace | termchat-relay/src/relay.rs:114-215 | in every interleaving each accepted payload is in exactly one reader, channel, backlog, queue, socket or the ledger of losses |
| Relay.NoDoubleDelivery | termchat-relay/src/relay.rs:114-215 | no payload is written to two sockets, or twice to one |
| Relay.DeliveredFromSubmitter | termchat-relay/src/relay.rs:263-297 | a delivered payload was accepted, fits the limit and carries the id its submitting connection registered with |
| Relay.StepLosesIff | termchat-relay/src/relay.rs:114-215 | a step loses payloads exactly on a failed write, a message that does not encode, a dropped channel, an aborted reader or a queue at its cap |
| Relay.StoringLosesOldest | termchat-relay/src/store.rs:68-84 | storing loses nothing while the queue has room, and then its oldest |
| Relay.IdleRecipientGets | termchat-relay/src/relay.rs:501-534 | undisturbed, a message for a running connection with nothing waiting is written to its socket as submitted |
| Relay.QueueGoesOut | termchat-relay/src/relay.rs:135-168 | undisturbed, a peer that registers gets its whole queue written to its socket, in order |
| Relay.StepConserves | termchat-relay/src/relay.rs:501-534 | each lookup, send, unregister, store, drain, write, stop and cleanup step moves payloads without loss or copy |
| Relay.StepAttributes | termchat-relay/src/relay.rs:283-297 | each step keeps every accepted payload numbered, within the limit and attributed |
| RelayFlow.OrderlyDelivery | termchat-relay/src/relay.rs:114-215 | over all interleavings, what one sender gets through to one recipient is a subsequence of what it submitted, if the recipient registers only after its earlier connections' cleanup and while nothing for it is past its lookup, and the sender routes one message to it at a time |
| RelayFlow.StepKeepsInv | termchat-relay/src/relay.rs:114-215 | every step that meets these conditions keeps the order invariant, whoever takes it |
| RelayReorder.EarlyRegistrationReorders | termchat-relay/src/relay.rs:136-139 | between any two peers, a registration before the previous connection's cleanup can reorder, the other conditions met |
| RelayReorder.LateStoreReorders | termchat-relay/src/relay.rs:502-524 | so can a registration between lookup and store |
| RelayReorder.TwoAtATimeReorders | termchat-relay/src/relay.rs:501-534 | so can two messages submitted over two connections of the sender |
| RelayOrder.RouteIsRouted | termchat-relay/src/relay.rs:501-534 | routing in one go is a run of the fine-grained steps with the effect of channel, queue or loss; a room message takes the same branches |
| RelayOrder.MovesAreOrderly | termchat-relay/src/relay.rs:126-214 | a run in which ids register again only after cleanup and routing is atomic is an orderly run of fine-grained steps |
| RelayOrder.AllowedRuns | termchat-relay/src/relay.rs:444-534 | every allowed move can be carried out from its state, meets the conditions and leaves all readers idle |
| RelayOrder.DeliveryKeepsSubmissionOrder | termchat-relay/src/relay.rs:126-214 | in such a run what one sender gets through to one recipient over all reconnections is a subsequence of what it submitted |
| Net.EveryTextAccountedFor | termchat/src/net.rs:724-764 | in every interleaving the queue is within its cap, each text is in exactly one place, and none is lost in the drain's lost branch |
| Net.DrainedInOrder | termchat/src/net.rs:553-587 | queued texts leave the queue in the order they were taken up |
| Net.TransmittedAtMostOnce | termchat/src/net.rs:724-764 | each text is transmitted at most once, and one that is gone unsent met a full queue or a failed drained send |
| Net.AttemptsAnnouncedInOrder | termchat/src/net.rs:447-488 | attempts since a drop are announced 1, 2, 3, ... up to the configured number |
| Net.AllAttemptsAreMade | termchat/src/net.rs:447-547 | without shutdown or success, every attempt from 1 to the last is announced before the supervisor gives up |
| Net.DropIsNoticed | termchat/src/net.rs:375-394 | after a drop shutdown ends the supervisor; else the slot is emptied and attempts begin afresh |
| Net.FlagSetIff | termchat/src/net.rs:889-893 | the shutdown flag is set exactly by the shutdown command, and never taken back |
| Net.ShutdownEndsAttempts | termchat/src/net.rs:375-379 | once shutdown is set while disconnected and not connecting, no further attempt is announced and nothing is drained |
| Net.StepKeepsSlot | termchat/src/net.rs:381-385 | the manager is absent only during a reconnect or after giving up, so never during a drain |
| Net.QueueIsPrefix | termchat/src/net.rs:724-756 | at every moment the queue is the first texts, up to its cap, of those offered since it was last taken |
| Net.StrandedIff | termchat/src/net.rs:724-756 | connected and idle, texts are left in the queue exactly when its cap is not zero and a text was offered after the queue was last taken |
| Net.RefusedTextIsStranded | termchat/src/net.rs:724-756 | one refused text, with the connection never dropping, is left behind |
| Net.TextCanBeStranded | termchat/src/net.rs:509-516 | a run with a reconnect that ends connected and idle with a text in the queue |
| Net.DrainEmptiesQueue | termchat/src/net.rs:553-587 | undisturbed, a drain hands over each queued text once, in order, and leaves the queue empty |
| Net.DrainedAsAt | termchat/src/net.rs:570-580 | each drained text is paired with its own outcome, in order |
| Net.HandlingRuns | termchat/src/net.rs:724-764 | undisturbed, the handler sends a text, else queues it, else drops it |
| Net.Shared.HandleSend | termchat/src/net.rs:724-756 | the queue afterwards, and whether the text was sent or dropped |
| Net.Shared.DrainMessageQueue | termchat/src/net.rs:553-587 | the queue is emptied at once and each text tried once, in order, without requeueing; without a manager all are lost |
| Backoff.CappedDelayExact | termchat/src/net.rs:453-456 | saturating arithmetic gives the exact min(initial * min(2^k, 2^32 - 1), max) |
| Backoff.CappedDelayMonotone | termchat/src/net.rs:453-456 | the capped delay never decreases from one attempt to a later one |
| Backoff.SleepWithinQuarter | termchat/src/net.rs:458-467 | jitter keeps a sleep between the delay and 1.25 times the delay |
| Backoff.JitterRangeIff | termchat/src/net.rs:459-465 | the jitter range is exactly the whole milliseconds within a quarter of the delay |
| Backoff.SleepFitsIff | termchat/src/net.rs:458-467 | the addition of delay and jitter fits a duration for every jitter exactly when it does for the largest that counts |
| Backoff.NoSleepOverflowsIff | termchat/src/net.rs:447-467 | no attempt can overflow exactly when the last one cannot |
| Backoff.SleepCanOverflow | termchat/src/net.rs:467-467 | with the longest delays a duration can hold the addition overflows |
| Backoff.TotalSleep | termchat/src/net.rs:447-476 | n sleeps total at most 1.25 * min(initial * (2^n - 1), n * max) |
| Backoff.Reconnect | termchat/src/net.rs:447-547 | attempts are announced without gaps and end at the first success, shutdown or overflowing sleep, or after the last; all before it slept, were announced and failed |
| Hybrid.FlushPartitions | termchat/src/transport/hybrid.rs:125-144 | a flush splits the queue into preferred, fallback and requeued, each in order, nothing lost or copied |
| Hybrid.RetrySplits | termchat/src/transport/hybrid.rs:125-144 | retrying any list appends to each transport and to the queue exactly what it should |
| Hybrid.EveryMessageHandedOverOnce | termchat/src/transport/hybrid.rs:193-206 | over any run of overlapping sends and flushes, requested messages equal those handed over plus those waiting |
| Hybrid.HybridTransport.Try | termchat/src/transport/hybrid.rs:177-189 | preferred first, fallback only if that fails |
| Hybrid.HybridTransport.SendMessage | termchat/src/transport/hybrid.rs:193-206 | a message neither transport takes is queued last, and the failure reported |
| Hybrid.HybridTransport.FlushPending | termchat/src/transport/hybrid.rs:125-144 | the new state is that of the flush function, and the result is the drop in queue length |
| Rooms.ValidNameIsStable | termchat/src/chat/room.rs:584-602 | an accepted name is clean, within bounds, and accepted again unchanged |
| Rooms.NameRefusedIff | termchat/src/chat/room.rs:584-602 | a name is refused exactly for being empty, longer than 64 characters, or all control characters and blanks, each with its error |
| Rooms.StripKeepsOthers | termchat/src/chat/room.rs:593-594 | stripping drops exactly the control characters and keeps the order of the rest |
| Rooms.TrimmedAwayIff | termchat/src/chat/room.rs:595-595 | trimming leaves nothing exactly of what is all blank |
| Rooms.RoomsBoundedAndDistinct | termchat/src/chat/room.rs:186-241 | every reachable state has at most 64 rooms, with distinct names |
| Rooms.MembersAreReplayed | termchat/src/chat/room.rs:325-388 | every reachable room has at most 256 members with distinct ids: its creator plus joined minus left, in order, by the events |
| Rooms.StepKeepsInv | termchat/src/chat/room.rs:186-566 | every operation keeps the bounds, the uniqueness and the agreement with the events |
| Rooms.AdminsAreExplained | termchat/src/chat/room.rs:186-566 | in every reachable state an admin member is the room's creator or was added directly as an admin |
| Rooms.CreatorIsAdmin | termchat/src/chat/room.rs:186-566 | in every reachable state a room's creator is an admin member of it unless it has left |
| Rooms.CreatedRoom | termchat/src/chat/room.rs:218-240 | a new room has its sanitized name, its creator as sole member and admin, and is announced; other rooms are unchanged |
| Rooms.CreateFailsIff | termchat/src/chat/room.rs:186-241 | creation fails exactly for its name, a name in use, or 64 rooms, in this order, and then changes nothing |
| Rooms.ApprovedMember | termchat/src/chat/room.rs:366-388 | a newcomer is appended, returned and announced as an ordinary member, neither admin nor agent |
| Rooms.ApproveElse | termchat/src/chat/room.rs:325-347 | otherwise approval changes nothing, and returns the existing member or the first error that applies |
| Rooms.AddedMember | termchat/src/chat/room.rs:491-526 | a member added directly is appended just as given and announced; else nothing changes |
| Rooms.RemovedMember | termchat/src/chat/room.rs:538-566 | the first member with the id is taken out, returned and announced; else nothing changes |
| Rooms.RequestIsQueued | termchat/src/chat/room.rs:283-311 | a join request is appended to the room's queue and announced, or refused without a trace |
| Rooms.DenialIsAnnounced | termchat/src/chat/room.rs:399-426 | a denial is announced and leaves rooms and other queues alone, or is refused without a trace |
| Rooms.ApproveIdempotent | termchat/src/chat/room.rs:339-342 | approving again changes nothing and returns the existing member |
| Rooms.AddIdempotent | termchat/src/chat/room.rs:501-504 | adding again changes nothing and returns the same list |
| Rooms.RemoveUndoesAdd | termchat/src/chat/room.rs:540-566 | removing a member just added restores the rooms and returns that member |
| Rooms.ApproveSettlesRequests | termchat/src/chat/room.rs:349-366 | approval clears all the newcomer's requests in that room, keeps everybody else's in order, and uses the name of its first |
| Rooms.DenyRemovesFirstRequest | termchat/src/chat/room.rs:409-418 | denial removes the peer's first request, returns its name, and changes no membership |
| Rooms.RegistrationsIff | termchat/src/chat/room.rs:256-272 | a queued room id yields a registration exactly when the room is known and still has an admin member |
| Rooms.RegistrationOf | termchat/src/chat/room.rs:259-269 | a registration carries the room's name and the id of its first admin member |
| Rooms.RegistrationsJoin | termchat/src/chat/room.rs:256-272 | queued ids are gone through in order, each yielding its own registration or none |
| Rooms.RoomManager.CreateRoom | termchat/src/chat/room.rs:186-241 | the room or the first of the errors, in the order checked |
| Rooms.RoomManager.DrainRegistrations | termchat/src/chat/room.rs:256-272 | returns the due registrations in order and empties the queue |
| Rooms.RoomManager.HandleJoinRequest | termchat/src/chat/room.rs:283-311 | appends the request and logs it, or refuses |
| Rooms.RoomManager.ApproveJoin | termchat/src/chat/room.rs:325-388 | the new state and result of approval, all error branches included |
| Rooms.RoomManager.DenyJoin | termchat/src/chat/room.rs:399-426 | the new state and result of denial, all error branches included |
| Rooms.RoomManager.AddMember | termchat/src/chat/room.rs:491-526 | the new state and result of a direct addition |
| Rooms.RoomManager.RemoveMember | termchat/src/chat/room.rs:538-566 | the new state and result of a removal |
| Codec.FrameRoundTrip | termchat-proto/src/codec.rs:48-60 | a frame decodes to its envelope and its own length, whatever follows |
| Codec.PrefixRejected | termchat-proto/src/codec.rs:75-97 | every strict prefix of a frame is an invalid frame |
| Codec.DecodeIsLocal | termchat-proto/src/codec.rs:75-97 | whatever decodes is a length prefix and a payload of that length, and decodes alike before any other bytes |
| Codec.EncodesIff | termchat-proto/src/codec.rs:48-60 | framing succeeds exactly for what serializes to less than 2^32 bytes; the other two cases have their own errors |
| Codec.DecodesIff | termchat-proto/src/codec.rs:75-97 | decoding fails for an incomplete frame exactly as an invalid frame, and for a complete one exactly when its payload does not decode |
| Codec.StreamRoundTrip | termchat-proto/src/codec.rs:48-97 | decoding a concatenation of frames recovers the list and consumes the buffer exactly |
| Codec.ConsumesAll | termchat-proto/src/codec.rs:75-97 | for any buffer that decodes to its end, consumed lengths sum to its length |
| Codec.LeRoundTrip | termchat-proto/src/codec.rs:57-57 | the little-endian prefix reads back as the length |
| Codec.LeSurjective | termchat-proto/src/codec.rs:82-85 | every four bytes are the prefix of exactly the length they read as |
| Codec.LeIsLittleEndian | termchat-proto/src/codec.rs:57-57 | the prefix has the least significant byte first |
| Codec.BuildFrame | termchat-proto/src/codec.rs:48-60 | appending prefix and payload builds the frame that the round trips are about |
| AgentIds.ValidAgentId | termchat/src/agent/protocol.rs:209-224 | an accepted id is non-empty, at most 64 characters, without control characters or a leading blank |
| AgentIds.AgentIdRefusedIff | termchat/src/agent/protocol.rs:209-224 | an id is refused exactly when it is all control characters and blanks; else it is the first 64 characters of what is left |
| AgentIds.RevalidationStableIff | termchat/src/agent/protocol.rs:209-224 | validating an accepted id again changes nothing exactly when the cut left no blank at its end |
| AgentIds.RevalidationCanChange | termchat/src/agent/protocol.rs:209-224 | 63 letters, a blank and a letter are accepted, and validating the result again changes it |
| AgentIds.DecimalInjective | termchat/src/agent/protocol.rs:238-238 | different suffixes are rendered differently |
| AgentIds.DecimalReads | termchat/src/agent/protocol.rs:238-238 | a suffix is rendered by its decimal digits, without leading zeros |
| AgentIds.CandidateInjective | termchat/src/agent/protocol.rs:231-238 | different candidates are different ids |
| AgentIds.Pigeonhole | termchat/src/agent/protocol.rs:230-244 | if the first n candidates are taken, at least n ids exist |
| AgentIds.MakeUnique | termchat/src/agent/protocol.rs:230-244 | the search ends with the smallest free candidate, at most one past the number of existing ids |

## Left out

- `created_at` and `created_by` are never merged by the program, so convergence is about the registers and the task ids, not the order in which tasks are listed.
- TaskManagers.TaskManager.GetTasks: the order among tasks with equal creation times, which follows the map's own.
- Relay.EachPayloadInOnePlace: is about payloads. Acknowledgements and refusals, which `RelayStates` puts into channels, do not travel through the step model, nor do close frames.
- Relay.DeliveredFromSubmitter: says nothing about frames as such. A room message that waited in a queue is sent as a payload frame (`termchat-relay/src/relay.rs:156-161`), one that went through a channel as a room frame.
- The relay's room directory and the routing of join requests to a room's admin (`termchat-relay/src/rooms.rs`), which ignores a failed send instead of queueing.
- `close_all_connections`, the sockets, and the registration handshake's own errors.
- Presence, typing, handshake and task-sync envelopes inside the chat pipeline; the sender check, which is a placeholder that always succeeds; the clock-skew variant of the UI event.
- UI events, history warnings, and the bounded channels that may drop them. The room manager's event log is what it emits, not what a full channel lets through.
- Reading a conversation back from history, conversation ids, and Nack reasons.
- The periodic tasks that call the flushes; a flush may happen at any point of a run.
- Encryption, serialization formats, sockets, clocks and identifier generation.
- Net.AttemptsAnnouncedInOrder: the supervisor of the step model does not crash; `Backoff.Reconnect` has the ending in which its sleep overflows.
- Room and typing commands of the command handler, which are stubs in the program; the agent bridge and its participants.
- The lookups of the room manager (`get_room`, `get_room_by_name`, `list_rooms`, `pending_requests`), which only read.
