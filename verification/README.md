# R2 Notify Server: verified model

The server keeps one fact in four places: the in-memory `clients` map (user to connection list), the Redis record of
each connected user (with the flag `EnableNotification`), the Mongo collections `notifications` and `configurations`,
and the frames already written to each websocket. This project models the code that moves these four and proves what
keeps them together.

Three layers, each tied to the next:

- **Values and traces.** `KeyNormaliser`, `ObjectIds`, `NotificationModel` and `NotificationHistory` are the
  notification collection and its operations as functions, with lemmas over unbounded histories.
  `ClientModel` is the client store as a value.
- **Code.** `NotificationRepository`, `ConfigurationRepository` and `ClientStore` are classes whose methods update
  fields, arrays and maps as the Go code does; every method is proved equal to its function. `ClientStore` works on Go
  slices: backing array, length and capacity, compaction in place over `conns[:0]`, appends into left-over capacity,
  new arrays for `activeConns`. `NotifyServer` holds the handlers, and each of them is proved to be one step of
  `SessionModel`.
- **Machines.** `SessionModel` runs whole handlers one after the other, with every Redis and Mongo call and every socket
  write free to fail; `HandlerEffects` says what each handler writes for every outcome of its calls, and
  `ReplicaConsistency`, `CacheAgreement`, `KeyEquality`, `PreferencePersistence`, `BroadcastCoherence` and
  `ConfigurationFrames` are theorems about its runs. `StoreProtocol` interleaves the calls of the client store step by
  step under the RW lock; `StoreProtocolProofs` has its invariants, `StoreRecords` compares the map with Redis,
  `StoreCoherence` compares the frames of a user's connections, and `StoreProtocolSolo` shows that a call which runs
  alone does what `ClientModel`, and so the session machine, says. `SessionWitnesses` and `StoreWitnesses` hold concrete
  runs that meet the failing conditions of these theorems.

Main results:

1. In every fault-free run, with sockets failing at will, each listed connection holds exactly its user's unread
   notifications while the Redis record is enabled and nothing otherwise. This is so exactly when no mark by id takes an
   unread notification from another user who is connected and enabled: `MarkNotificationAsRead` filters by id alone.
2. Under every interleaving: no listed connection is stale, no user stays in the map after the last stored connection
   was removed, no healthy connection is lost to overlapping senders, and a write loop that has ended has written its
   payload once to each connection it keeps and to no other. A listed user has a Redis record or a `StoreClient` on
   its way to write it exactly as long as no such write fails without a stand-in; a record belongs to a listed user or
   to a `Del` on its way exactly as long as no `Set` comes after the user has left and no `Del` fails. The `Set` is
   written after the lock is given back, so it can come late with nothing failing, although the comments call both
   calls safe to run concurrently. Connections of one user agree on the stream of frames as long as no two sends of
   the user are in their loops together; two that are can cross, and then the connections differ with nothing failing.
3. A notification is shown as unread exactly when it was created for the user and no later filter matched it; marking
   and deleting look the same to every unread query exactly when no mark by id names a stranger's unread notification.
4. The users in the map are the users with a record after every handler of a fault-free run exactly as long as no toggle
   is read from a connection that was taken off the list as its user's last. Nobody ever has two configuration documents
   exactly as long as no connect of a user who has one sees its lookup fail and its insert succeed.
5. Once a toggle-off has reached the document and the record, whatever fails afterwards and across reconnects, both say
   off exactly until a toggle-on reaches one of them, or until the user connects, the lookup fails, and the insert and
   the `Set` succeed: the failed lookup is taken for a missing document, and the user counts as enabled. Up to then the
   user receives configurations and empty lists only.
6. In every run, faults included, each listed connection with a running read loop was last told the configuration of its
   user's document exactly as long as no toggle changes the document without its reply going out and no greeting breaks
   off before the configuration; in fault-free runs always. A connection whose read or ping has failed never receives
   anything again.

"Fault-free" means that Redis and Mongo calls succeed. A run starts with an empty Redis and a process without
connections; the database may hold documents from before, at most one configuration of each user.

Where the code and its comments or README differ, the code is followed: a mark by id does not look at the user
(`repository/notification/notification_repository_impl.go:301`), `MarkAsRead` and `DeleteNotifications` do not trim the
client id, a by-id operation that matches nothing is no error, and the REST endpoint takes the user from the token and
not from a header.

## Model

| member | source | states |
|---|---|---|
| KeyNormaliser.TrimMeetsReference | repository/notification/notification_repository_impl.go:209-210 | Trim returns m if and only if m has bare ends and the rest of the string on both sides is cutset characters |
| KeyNormaliser.PaddingIsUndone | repository/notification/notification_repository_impl.go:282-283 | whitespace, then quotes, around a string with bare ends is removed exactly |
| KeyNormaliser.SingleCharacters | repository/notification/notification_repository_impl.go:209-210 | the two character classes by code: of the keys of one character, exactly the white space of Unicode is taken off by the first step, and the double and the single quote by the second |
| KeyNormaliser.ReachOfNormaliser | repository/notification/notification_repository_impl.go:209-218 | some client key selects a stored key if and only if no quote stands at either end of the stored key |
| KeyNormaliser.FixedPoints | repository/notification/notification_repository_impl.go:244-247 | a key is unchanged if and only if neither whitespace nor a quote stands at its ends; any other key gets shorter |
| KeyNormaliser.OnePassIsEnough | repository/notification/notification_repository_impl.go:244-247 | a second pass changes nothing if and only if the key is whitespace around quotes around a string with bare ends |
| KeyNormaliser.NotIdempotent | repository/notification/notification_repository_impl.go:244-247 | the witness for the other keys: one on which a second pass takes off more than the first |
| KeyNormaliser.IterationReachesUnionTrim | repository/notification/notification_repository_impl.go:244-247 | as many passes as the key is long give the trim by both classes together |
| ObjectIds.HexRoundTrip | services/notification/notification_service_impl.go:57 | the hex text of an id has 24 digits, two for each byte with the high half first, and parses back to the id |
| ObjectIds.HexDigits | repository/notification/notification_repository_impl.go:290-300 | the digits that are accepted, in both letter cases |
| ObjectIds.ParsedTexts | repository/notification/notification_repository_impl.go:290-300 | exactly the texts of 24 hex digits parse, and encoding what was parsed gives the same digits with the letters lowered |
| ObjectIds.ClientIdRoundTrip | repository/notification/notification_repository_impl.go:282-290 | an id sent back bare, or in quotes and outer whitespace, names the same id |
| NotificationHistory.HistoryCharacterisation | repository/notification/notification_repository_impl.go:39 | after any history with fresh ids, a user sees a notification if and only if it was created unread for the user and no later mark or delete has a filter matching it, and sees it as it was stored |
| NotificationHistory.LifeOf | repository/notification/notification_repository_impl.go:137-464 | what is left of a created notification at every later point: same content, unread exactly while no filter hit it |
| NotificationHistory.NeverReverts | repository/notification/notification_repository_impl.go:180-464 | a read notification never becomes unread, and one that is gone never returns |
| NotificationHistory.SimulationStep | repository/notification/notification_repository_impl.go:301-446 | one mark on one side and the delete of the same scope on the other keep all unread views equal if and only if the mark does not take a stranger's unread notification by id |
| NotificationHistory.MarkDeleteIndistinguishable | repository/notification/notification_repository_impl.go:187-446 | replacing every mark of a history by the delete of the same scope leaves every unread view after every prefix unchanged if and only if no mark by id names another user's unread notification |
| NotificationHistory.ForeignMarkShows | repository/notification/notification_repository_impl.go:301 | a stranger's mark by id hides the notification from its owner, the stranger's delete does not |
| NotificationHistory.BatchEffect | repository/notification/notification_repository_impl.go:187-446 | a batch removes a notification if and only if one of its deletes matches, and marks it if and only if one of its marks does |
| NotificationHistory.PermutationInvariance | repository/notification/notification_repository_impl.go:187-446 | any reordering of a batch leaves the same notifications and read statuses, up to updatedAt |
| NotificationHistory.GroupsMakeUpApp | repository/notification/notification_repository_impl.go:208-275 | marking (deleting) group by group until every stored group of the app is reached equals the app operation, in any order |
| NotificationHistory.AppsMakeUpEverything | repository/notification/notification_repository_impl.go:180-238 | the same app by app for all notifications of a user |
| NotificationHistory.GroupSweepExists | repository/notification/notification_repository_impl.go:244-255 | client keys for such a sweep, of marks as of deletes, exist if and only if no stored group key of the app starts or ends with a quote |
| NotificationHistory.AppSweepExists | repository/notification/notification_repository_impl.go:209-218 | the same for the app ids of a user |
| NotificationHistory.ListedIdReachesItsNotification | repository/notification/notification_repository_impl.go:281-301 | the id of a listed notification, padded or not, makes the owner's mark or delete affect that notification and nothing else |
| NotificationRepository.NotificationRepository.FindAll | repository/notification/notification_repository_impl.go:32-84 | the unread documents of the user, each once, in some order |
| NotificationRepository.NotificationRepository.Create | repository/notification/notification_repository_impl.go:137-174 | inserts under the new id with dates cut to milliseconds, or fails and changes nothing |
| NotificationRepository.NotificationRepository.MarkAsRead | repository/notification/notification_repository_impl.go:180-205 | the collection after the mark of everything, nothing on a fault |
| NotificationRepository.NotificationRepository.MarkAppAsRead | repository/notification/notification_repository_impl.go:208-238 | the collection after the mark of the normalised app |
| NotificationRepository.NotificationRepository.MarkGroupAsRead | repository/notification/notification_repository_impl.go:243-275 | the collection after the mark of the normalised group |
| NotificationRepository.NotificationRepository.MarkNotificationAsRead | repository/notification/notification_repository_impl.go:281-319 | the collection after the mark by id whoever owns it; an unparsable id is an error that changes nothing |
| NotificationRepository.NotificationRepository.DeleteNotifications | repository/notification/notification_repository_impl.go:325-350 | the collection without the user's notifications |
| NotificationRepository.NotificationRepository.DeleteAppNotifications | repository/notification/notification_repository_impl.go:353-383 | the collection without those of the normalised app |
| NotificationRepository.NotificationRepository.DeleteGroupNotifications | repository/notification/notification_repository_impl.go:388-420 | the collection without those of the normalised group |
| NotificationRepository.NotificationRepository.DeleteNotification | repository/notification/notification_repository_impl.go:426-464 | the collection without the named notification if the caller owns it; an unparsable id is an error |
| NotificationRepository.NotificationService.FindAll | services/notification/notification_service_impl.go:36-85 | one item for every document in cursor order, each of its nine fields the one of the document, empty and no error when there is none |
| ConfigurationRepository.UpdateSets | repository/configuration/configuration_repository_impl.go:105-118 | updating sets the flag of the user's document and leaves every other lookup and every count alone |
| ConfigurationRepository.InsertCounts | repository/configuration/configuration_repository_impl.go:63-70 | inserting adds a document and changes a lookup only where nothing was found before |
| ConfigurationRepository.FindOneUnique | repository/configuration/configuration_repository_impl.go:37-40 | with one document of a user, a lookup returns it whatever the scan order |
| ConfigurationRepository.ConfigurationRepository.FindByAppAndUser | repository/configuration/configuration_repository_impl.go:29-58 | a document of the user, or an error when there is none or the call fails |
| ConfigurationRepository.ConfigurationRepository.Create | repository/configuration/configuration_repository_impl.go:63-100 | one more document, whether or not the user has one |
| ConfigurationRepository.ConfigurationRepository.Update | repository/configuration/configuration_repository_impl.go:105-147 | the flag of the user's document is set, an error when there is none |
| ClientModel.WithoutMembers | services/client_store.go:112-117 | filtering keeps exactly the other connections |
| ClientModel.HealthyMembers | services/client_store.go:300-315 | pruning keeps exactly the connections that take the write |
| ClientModel.DeliverOnce | services/client_store.go:301-312 | each healthy connection of the list receives the payload once, everybody else nothing |
| ClientStore.Append | services/client_store.go:31 | append in place while there is capacity, touching one cell, else into a new array, leaving the old one alone |
| ClientStore.ClientStore.StoreClient | services/client_store.go:23-53 | the list of the user grows by the connection, then the record is written or the call fails; users never share an array, and cells left over from a removal never come back |
| ClientStore.ClientStore.Compact | services/client_store.go:112-117 | compaction over the array it reads from yields the filtered list |
| ClientStore.ClientStore.RemoveConnection | services/client_store.go:90-138 | the map after filtering, the key and the record gone when nothing is left |
| ClientStore.ClientStore.GetClientInfo | services/client_store.go:143-179 | the record, or an error when it is missing or Redis fails |
| ClientStore.ClientStore.UpdateClientInfo | services/client_store.go:184-210 | the record is replaced, nothing else changes |
| ClientStore.ClientStore.Broadcast | services/client_store.go:300-313 | writes to every connection of the slice and collects the ones that took it in a new slice |
| ClientStore.ClientStore.SendToUser | services/client_store.go:259-323 | result and whole new state of a send, with its three refusals and the pruned list, an empty one included |
| StoreProtocolProofs.StepKeepsLock | services/client_store.go:97-98 | every step keeps the lock's books: exactly the processes between lock and unlock hold it, a writer alone |
| StoreProtocolProofs.WriterIsAlone | services/client_store.go:30-32 | while one call writes under the write lock, no sender holds a snapshot and nobody else writes |
| StoreProtocolProofs.WaitsForHolders | services/client_store.go:97-98 | a call waits exactly for a writer that holds the lock, and a writer for the senders too; nobody waits anywhere else |
| StoreProtocolProofs.SomebodyAdvances | services/client_store.go:97-98 | no deadlock: in every interleaving, while a call is unfinished some unfinished call can take its next step |
| StoreProtocolProofs.StepKeepsPresence | services/client_store.go:100-131 | every step keeps: what is listed or held by a sender is stored and not removed, and a user in the map has such a connection |
| StoreProtocolProofs.StepKeepsHealth | services/client_store.go:266-315 | every step keeps: a healthy stored connection is listed, and every sender has it among what it wrote to or will write to |
| StoreProtocolProofs.NoLeak | services/client_store.go:100-131 | in every interleaving a listed connection is stored and not removed since; with none left the user is not in the map |
| StoreProtocolProofs.NoHealthyConnectionIsLost | services/client_store.go:266-315 | in every interleaving a stored, not removed connection that never failed stays listed |
| StoreProtocolProofs.SendReachesTheHealthy | services/client_store.go:301-315 | a send whose loop has ended keeps every healthy connection of the user, and has itself written to each connection as often as it keeps it, and nothing but its payload |
| StoreRecords.StepKeepsRecords | services/client_store.go:30-35 | a step keeps a record or a pending StoreClient for every listed user if and only if it is not a failing Set without a stand-in |
| StoreRecords.RecordsHoldExactly | services/client_store.go:30-122 | the same over whole runs, in both directions |
| StoreRecords.ListedUsersAreRecorded | services/client_store.go:30-122 | with no failing Set of a StoreClient, a listed user has a record or a StoreClient between its append and its Set |
| StoreRecords.QuiescentStoreIsRecorded | services/client_store.go:30-35 | with no call under way and no Redis failure before, every listed user has a record |
| StoreRecords.StepKeepsOrphanFree | services/client_store.go:119-122 | a step keeps every record backed by a list or a pending Del if and only if it is neither a Set for a user who has left nor a failing Del of a record |
| StoreRecords.OrphanFreeExactly | services/client_store.go:30-122 | the same over whole runs, in both directions |
| StoreRecords.QuiescentKeysAgree | services/client_store.go:30-210 | with no call under way and none of these before, the map and Redis name the same users |
| StoreRecords.RecordIsLastSet | services/client_store.go:35-192 | in every interleaving the flag of a record is the one the last successful Set of the user wrote, and there is none when a Del came since |
| StoreRecords.SendsGoByTheLastSet | services/client_store.go:266-290 | a send that reads the record goes on to its loop if and only if that flag is on, or there is a record and it bypasses the check |
| StoreWitnesses.FailedSetLosesRecord | services/client_store.go:35-45 | a run in which the Set of the only StoreClient fails and a listed user has no record |
| StoreWitnesses.LateSetLeavesOrphan | services/client_store.go:32-35 | a run without failures in which the Set comes after the whole RemoveConnection: all calls finished, a record, no list |
| StoreWitnesses.ToggleStopsSend | services/client_store.go:184-279 | a run in which an UpdateClientInfo after a StoreClient makes the next send stop at the check |
| StoreCoherence.StepKeepsOrder | services/client_store.go:30-131 | every step keeps: lists, snapshots and what a loop has done and has left stand in the order in which connections were stored, provided each is stored once |
| StoreCoherence.StepKeepsCoherent | services/client_store.go:266-315 | every step that starts no second loop for a user keeps: the connections of an idle user agree, and in the middle of a loop those behind it are one payload ahead |
| StoreCoherence.InterleavedBroadcastsAreCoherent | services/client_store.go:266-315 | in every interleaving without two loops of one user at the same time, whatever fails: while no loop of the user runs, a later-stored listed connection received a suffix of the frames of an earlier one |
| StoreCoherence.SendWritesOnce | services/client_store.go:301-312 | in every interleaving, overlapping sends included, with each connection stored once: a send whose loop has ended wrote once to each connection it keeps and not to the others |
| StoreWitnesses.CrossingSendsDisagree | services/client_store.go:301-312 | for any two payloads, a run without failures in which two overlapping sends reach two connections of a user in opposite orders |
| StoreProtocolSolo.StoreAlone | services/client_store.go:23-53 | the interleaved steps of StoreClient, run alone, add up to the whole call and free the lock |
| StoreProtocolSolo.UpdateAlone | services/client_store.go:184-210 | the single step of UpdateClientInfo is the whole call, under any lock |
| StoreProtocolSolo.RemoveAlone | services/client_store.go:90-138 | the same for RemoveConnection |
| StoreProtocolSolo.SendAlone | services/client_store.go:259-323 | the same for sendToUser, the write loop connection by connection, with the frames each connection received |
| SessionInvariants.SendEffect | services/client_store.go:259-323 | a send reaches the surviving connections of its user exactly once and nobody else, and takes no key away |
| SessionInvariants.RunIsSound | services/client_store.go:31-130 | in every run, faults included, lists name each connection once and under the user that opened it |
| CacheAgreement.StepKeepsSynced | handlers/websocket.go:122-157 | every fault-free handler keeps one configuration document per user that connected and Redis records that carry its flag |
| CacheAgreement.CachesAgree | handlers/websocket.go:686-710 | the same after every handler of a fault-free run |
| CacheAgreement.ScanOrderDoesNotMatter | repository/configuration/configuration_repository_impl.go:37-40 | in fault-free runs a lookup does not depend on the order in which Mongo meets documents |
| CacheAgreement.DocumentsAreUniqueExactly | handlers/websocket.go:122-127 | in every run, whatever fails, nobody has two documents after any handler if and only if no connect of a user who has one sees its lookup fail and its insert succeed |
| CacheAgreement.LookupFaultDuplicates | handlers/websocket.go:122-127 | a connecting user gets a second document if and only if the lookup fails and the insert succeeds |
| KeyEquality.StepKeepsKeys | handlers/websocket.go:707-710 | a fault-free step keeps the users in the map equal to the users with a record if and only if it is not a toggle of a user who is not in the map |
| KeyEquality.KeysEqualExactly | handlers/websocket.go:707-710 | over whole fault-free runs, with failing sockets: the two are equal after every handler if and only if no such toggle happens |
| KeyEquality.KeysStayEqual | services/client_store.go:90-138 | in fault-free runs without write failures the two are equal after every handler |
| PreferencePersistence.StepIsQuiet | handlers/websocket.go:113-182 | while document and record say off, a step, whatever fails in it, keeps both off if and only if it is neither a toggle-on that reaches one of them nor a connect whose lookup fails while insert and Set succeed; every other step sends the user nothing but configurations and empty lists |
| PreferencePersistence.SwitchesOff | handlers/websocket.go:686-710 | a toggle-off leaves both off if and only if each of them was written or said so before |
| PreferencePersistence.OffExactly | handlers/websocket.go:113-182 | in every run, faults included, both say off from one state to a later one if and only if no step between is one of these two |
| PreferencePersistence.QuietWhileOff | handlers/websocket.go:113-182 | in every run, as long as there is no such step, no connection of the user receives a new notification or a list with content, across reconnects |
| PreferencePersistence.PreferencePersists | handlers/websocket.go:686-730 | a toggle-off whose update and Set succeed starts such a time, up to the first toggle-on that reaches document or record, or the first connect that forgets |
| PreferencePersistence.ForgettingShows | handlers/websocket.go:122-157 | such a connect sends the user something to see if and only if the list can be read, is not empty, and reaches a connection that takes writes |
| BroadcastCoherence.BroadcastsAreCoherent | services/client_store.go:301-315 | in every run of whole handlers, faults included, a later-stored listed connection received a suffix of the frames of an earlier one |
| ReplicaConsistency.ListingCores | services/notification/notification_service_impl.go:55-68 | a list in any cursor order shows exactly the unread notifications |
| ReplicaConsistency.PublishedCores | controller/notification_controller.go:104-162 | storing a notification adds to its user's unread set exactly what the push carries, and nothing to anybody else's |
| ReplicaConsistency.PushedMatchesListed | event-hub/consumer/consumer.go:80-117 | the pushed and the listed form of a new notification differ in timestamps only, by less than a millisecond |
| ReplicaConsistency.CoresDifferById | services/notification/notification_service_impl.go:57 | two entries of an unread set with the same id are the same entry |
| ReplicaConsistency.SendAllRefreshes | handlers/websocket.go:281-312 | whatever the connections held before, a list that is sent makes them hold the unread set, and leaves other users as they were |
| ReplicaConsistency.OthersUnread | repository/notification/notification_repository_impl.go:187-446 | a mark or delete of one user changes another user's unread set if and only if it is a mark by id that names something in it |
| ReplicaConsistency.StepConsistent | handlers/websocket.go:157-259 | a fault-free step keeps all replicas right if and only if it does not take an unread notification by id from a connected, enabled stranger |
| ReplicaConsistency.ReplicasAreConsistent | handlers/websocket.go:157-312 | over whole fault-free runs, with failing sockets: every listed connection holds the unread set of its user, or nothing while disabled, after every handler if and only if no such mark happens |
| ReplicaConsistency.HeldAreTheDocuments | services/notification/notification_service_impl.go:55-68 | consistency field by field: an enabled user's connection holds an item for each unread document of the user and nothing else, equal in id, app, user, group, message, status and read status; a disabled user's connection holds nothing |
| ReplicaConsistency.ConnectionsHoldTheDocuments | handlers/websocket.go:157-312 | the same after every handler of a fault-free run up to the first mark by id that takes a connected, enabled stranger's notification |
| ReplicaConsistency.OwnMarksAreEnough | handlers/websocket.go:488-520 | replicas are right after every handler when marks by id name the caller's own notifications |
| SessionWitnesses.ToggleAfterFailedPing | handlers/websocket.go:96-106 | a run without failing calls in which a ping fails, the read loop then reads a toggle, and Redis keeps a record for a user who is not in the map |
| SessionWitnesses.StrangersMarkIsMissed | repository/notification/notification_repository_impl.go:301 | for any two users, a run in which nothing fails, one marks the other's notification by id, and the owner's connection still holds it |
| SessionWitnesses.FailedLookupDuplicates | handlers/websocket.go:122-127 | a run in which a second connect of a user leaves two documents |
| SessionWitnesses.FailedReplyMisses | handlers/websocket.go:339-353 | a run in which the document cannot be read again after a toggle, and the connection keeps the old configuration |
| SessionWitnesses.FailedLookupForgets | handlers/websocket.go:122-127 | a run in which a user with notifications off opens another connection, the lookup fails, and the stored notifications go out |
| HandlerEffects.SendExactly | services/client_store.go:259-323 | who receives the payload of a send, who stays listed and who is found broken, for every outcome of the Redis call and of the writes |
| HandlerEffects.ListingFrames | handlers/websocket.go:281-312 | reload, mark and delete, whatever fails: exactly the user's connections that take the write receive one list of the documents as the handler leaves them, item by item and field by field, and only when query and check succeed |
| HandlerEffects.PublishEffect | controller/notification_controller.go:104-162 | a new notification is stored with the fields of the draft and pushed with the same fields, uncut times included, to exactly the connections that take it; when the insert fails nothing changes and nothing is sent |
| HandlerEffects.PublishedThenMarked | repository/notification/notification_repository_impl.go:208-275 | a later mark by app, or by app and group, reads a new notification if and only if its keys normalise to those of the draft |
| HandlerEffects.ToggleWrites | handlers/websocket.go:686-710 | what a toggle leaves in document and record for every outcome of the two writes, the zero connection time included |
| HandlerEffects.ToggleFrames | handlers/websocket.go:710-732 | the reply to a toggle, whatever fails: the list or the empty list, then the configuration with id and flag of the document as it is now, to exactly the connections that take them |
| HandlerEffects.RegisterWrites | handlers/websocket.go:113-168 | documents, record, list and connection after the first half of a connect, for every outcome of its calls |
| HandlerEffects.ConnectWrites | handlers/websocket.go:84-187 | what a connect leaves behind: document, record with the connection time, running loop, or a closed connection that was sent nothing |
| HandlerEffects.ConnectFrames | handlers/websocket.go:157-182 | the greeting, to every connection of the user that takes it: the list when enabled, then the configuration of the document that was found or created |
| HandlerEffects.RemovalWrites | handlers/websocket.go:96-199 | a failed read or ping writes to nobody, closes the connection and takes it off the list, and deletes the record if and only if it was the last one and the Del succeeds |
| HandlerEffects.IgnoredDoesNothing | handlers/websocket.go:260-268 | a message that is no known event changes nothing |
| HandlerEffects.MarkWrites | repository/notification/notification_repository_impl.go:187-301 | a mark sets the read status and the time, cut to milliseconds, of what it selects, and nothing else |
| HandlerEffects.DocumentsFollow | handlers/websocket.go:234-269 | only marks, deletes and new notifications touch the documents, and only when the write succeeds |
| HandlerEffects.GoneForGood | handlers/websocket.go:96-199 | in every run, a connection whose read or ping has failed is never listed again and never receives anything |
| ConfigurationFrames.StepAndCurrent | handlers/websocket.go:339-353 | a step, whatever fails in it, keeps every listed connection with a running loop told what the document of its user says if and only if it is neither a toggle that changes the document without its reply going out to a connection that stays, nor a greeting that breaks off before the configuration |
| ConfigurationFrames.ConfigurationsAreCurrentExactly | handlers/websocket.go:157-353 | the same over whole runs, faults included, in both directions |
| ConfigurationFrames.ConfigurationsAreCurrent | handlers/websocket.go:339-353 | in fault-free runs the last configuration each such connection received names its user, the hex id of the user's one document, and the flag of that document |
| NotifyServer.NotifyServer.SendAllNotificationsToClient | handlers/websocket.go:281-312 | the list is fetched and sent, or nothing happens when the query fails |
| NotifyServer.NotifyServer.SendEmptyNotificationListToClient | handlers/websocket.go:319-333 | the empty list is sent past the status check |
| NotifyServer.NotifyServer.SendConfigurationsToClient | handlers/websocket.go:339-377 | the user's configuration is sent past the status check, nothing when it cannot be read |
| NotifyServer.NotifyServer.LoadPreference | handlers/websocket.go:113-149 | the flag of the user's document, or of a new enabled one when the lookup fails in any way |
| NotifyServer.NotifyServer.RegisterConnection | handlers/websocket.go:85-168 | the connect sequence up to the stored client, with both ways of giving up |
| NotifyServer.NotifyServer.HandleConnection | handlers/websocket.go:84-187 | a new connection is one Connect step of the session machine |
| NotifyServer.NotifyServer.HandleDisconnect | handlers/websocket.go:188-199 | a failed read is one step: removed, then closed |
| NotifyServer.NotifyServer.HandlePingFailure | handlers/websocket.go:96-106 | a failed ping is one step; the read loop goes on |
| NotifyServer.NotifyServer.MarkAsReadAction | handlers/websocket.go:382-402 | mark everything, then send the list whether or not the mark succeeded |
| NotifyServer.NotifyServer.MarkAppAsReadAction | handlers/websocket.go:408-441 | the same for an app |
| NotifyServer.NotifyServer.MarkGroupAsReadAction | handlers/websocket.go:447-482 | the same for a group |
| NotifyServer.NotifyServer.MarkNotificationAsReadAction | handlers/websocket.go:488-520 | the same for an id text |
| NotifyServer.NotifyServer.DeleteNotificationsAction | handlers/websocket.go:526-546 | delete everything, then send the list |
| NotifyServer.NotifyServer.DeleteAppNotificationsAction | handlers/websocket.go:552-587 | the same for an app |
| NotifyServer.NotifyServer.DeleteGroupNotificationsAction | handlers/websocket.go:593-628 | the same for a group |
| NotifyServer.NotifyServer.DeleteNotificationAction | handlers/websocket.go:634-666 | the same for an id text |
| NotifyServer.NotifyServer.SetNotificationStatusAction | handlers/websocket.go:673-733 | document, then record with a zero connection time, then the full or the empty list, then the configuration |
| NotifyServer.NotifyServer.HandleMessage | handlers/websocket.go:234-269 | the event switch, message by message: which mark or delete with which keys, the list, the toggle or nothing; and each is exactly the step of its event |
| NotifyServer.NotifyServer.ConsumeEvent | event-hub/consumer/consumer.go:79-119 | create, then push what was created; the stored document is given field by field, its times cut to milliseconds; a failed create changes nothing at all |
| NotifyServer.NotifyServer.CreateNotification | controller/notification_controller.go:71-162 | missing fields are refused without any change; past that the new id when the document was stored, with the fields of the request, and a database error and no change otherwise; then the same create-then-push step |

## Left out

- HTTP, the websocket upgrade, JWT and Google authentication, CORS, configuration loading, the logger and JSON encoding: library calls and I/O. A session starts with a known user id, messages arrive decoded, payloads are datatypes.
- Mongo, Redis and Event Hub internals: a collection with ids supplied from outside, a key-value map, an event source. Whether a call succeeds, in which order a cursor yields, on which sockets a write fails, and the time, are parameters. A failed Mongo write changes nothing.
- Invalid UTF-8 in keys: strings are sequences of Unicode characters.
- Overlapping handlers over the database: the session machine runs one handler at a time. Interleaving is modelled for the client store alone.
- Two senders writing to one websocket at the same moment, which the websocket library does not allow: the interleaved model treats a write, and each access to the map, as one atomic step.
- The read and write deadlines and the ping timer: a ping failure and a read failure are events that can happen at any time.
- DeleteClient and configuration Delete: no caller in the repository.
- FindById of the notification repository and service: no caller in the repository.
- Several server processes that share one Redis, and Redis records left over from an earlier process.
- ProcessAllowedOrigins, routers, middleware and the service functions that only delegate.
- ClientStore.ClientStore.Broadcast: the sockets that fail are one set for the whole loop, so a connection listed twice fails both writes or none. `StoreProtocol` lets each write fail on its own, and in runs no connection is listed twice (`RunIsSound`).
- ClientStore.ClientStore.SendToUser: the sockets that fail are fixed for the duration of one send, so a connection listed twice fails both writes or none; in runs no connection is listed twice.
