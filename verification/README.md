# aiotruenas in Dafny

A model of the asynchronous TrueNAS client `aiotruenas` and proofs about it. It covers three parts
of the library.

**The connection (`Wire`, `Client`, `History`, `Protocol`, `Safety`, `Theorems`, `Progress`,
`Witness`, `Delivery`, `Outcomes`, `Service`).** Any number of tasks call `connect`, `close`,
`call`, `subscribe`, `unsubscribe` and `enable_private_methods` on one client object, while one
reader task per connection routes what the server sends. `Client` has the object itself: a class
whose methods are the code segments that run without suspending, each equated with a function on a
snapshot of the fields. `Protocol` composes those functions into a transition system. A step runs
one coroutine from one real suspension point to the next: getting a lock, opening and logging in,
`send`, `close`, waiting for the reply, waiting for the reader. Whatever is awaited may return, fail
or be cancelled at any time, and messages may be any messages. `History` adds what the proofs talk
about: the messages each connection has routed, the connection each request went out on, and how
each subscription began and ended. `Safety` proves one invariant of every step; `Theorems` and
`Progress` read the guarantees off it, for single states and for whole runs. Nothing is assumed
about the server. Where a guarantee depends on the server or on how a reader ends, the theorem names
the exceptional case, and `Witness` has a run that reaches it. An invariant would also hold of a
client that does nothing, so three more modules say what is achieved, in terms of a message's own
text and of the tables alone: `Delivery` that each message reaches exactly the queues it is meant
for, `Outcomes` what a close, a failed call and an unsubscribe bring about, whatever interferes, and
`Service` that each operation that nobody disturbs runs to its end and does what it is for.

**The cached state (`Text`, `Json`, `Normalize`, `Mapping`, `Values`, `Capacity`, `Pools`,
`Refresh`, `Snapshots`, `Contents`, `Staleness`, `Endpoints`, `Records`, `Ups`).** `parse_api` is a
loop over a response that edits a dictionary of records in place. Both the dictionary and each
record in it are objects that others may hold on to. `Normalize` proves that the loop computes a
closed form, and what it shares with the map it was given; `Mapping` proves what the closed form
means. `Pools` says what `get_dataset` and `get_pool` make of the cached maps, and `Refresh` has
them as methods of a class that writes records in place, on deep copies. Their contracts include
that the maps handed out earlier, and every record in them, stay exactly as they were; with a
shallow copy in place of a deep one that would not hold. `Snapshots` proves the staleness flags, the
boot pool and the capacity figures right over every sequence of refreshes with arbitrary answers.
`Endpoints` and `Ups` do the same for `get_scrub`, `get_service`, `get_interface`, `get_vm` and
`get_ups`. `Values`, `Contents`, `Staleness` and `Records` say what all this amounts to for a reader
who only has the answers: which records are published, what each field of theirs holds, and when
they count as outdated.

**Arithmetic and parsing (`Series`, `Cpuset`, `BootEpoch`).** The averages of a netdata graph's
series, the size of a cpuset, and the boot time that is damped against jitter.

Four statements turned out to need a condition, and are proved with the exact one:

- A returned subscription queue is tracked or terminated, except if the server issued its id again
  while it was tracked. Then it is neither (`Theorems.QueueHistory`, `Witness.ReissuedIdOrphansQueue`).
- A carried-over boot pool without a root dataset is republished unchanged if it was published
  without one (`Snapshots.CarriedEntryIsKept`). If it had one before, it is unchanged exactly when its
  figures were unknown or its own free figure agrees with them (`Snapshots.LostRootEntry`).
- The staleness flags are exact for every run (`Snapshots.FlagsAreExact`), but a refresh that an
  exception ends can leave old data unflagged; `Snapshots.UnflaggedFallback` says exactly when.
- While an endpoint is stale its records are the last fresh ones, but not those of virtual machines:
  every refresh with an unusable answer divides their memory again, unless it reads zero
  (`Endpoints.StaleMachinesDrift`; `Endpoints.EightGibibytes` is a run in which 8 GiB become 8192).

## Model

| member | source | states |
|---|---|---|
| Client.TrueNASClient.RegisterCall | src/aiotruenas/client.py:707-724 | a call takes the next request id and leaves a waiting future, and its reply hook, under it |
| Client.TrueNASClient.PublishConnection | src/aiotruenas/client.py:513-516 | a successful connect makes its socket current, starts its reader, and sets the private-methods mark if the flag is set |
| Client.TrueNASClient.UntrackSubscription | src/aiotruenas/client.py:854-862 | a failed subscribe removes its id only while that id still names its own queue |
| Client.TrueNASClient.UnregisterCall | src/aiotruenas/client.py:777-780 | the call's pending entry and hook are gone, nothing else changes |
| Client.TrueNASClient.FailPending | src/aiotruenas/client.py:436-440 | exactly the pending futures that are not done fail |
| Client.TrueNASClient.EndSubscriptions | src/aiotruenas/client.py:444-445 | exactly the tracked queues get one terminator at their end |
| Client.TrueNASClient.DetachConnectionLocked | src/aiotruenas/client.py:425-448 | the whole state after a detach, and the reader task it returns |
| Client.TrueNASClient.HandleRpcResponse | src/aiotruenas/client.py:365-380 | a reply completes its call on the current connection only, running the hook first; late or unknown replies only unregister |
| Client.TrueNASClient.GetMatchingQueues | src/aiotruenas/client.py:457-470 | exactly the queues of the connection's subscriptions whose event is the collection, or the part of it before its first colon; none if the connection is not current |
| Client.TrueNASClient.PutAll | src/aiotruenas/client.py:401-409 | the item is appended to exactly the given queues |
| Client.TrueNASClient.HandleSubscriptionNotification | src/aiotruenas/client.py:382-393 | a notification goes to the queue tracked under its id on the current connection, and nowhere else |
| Client.TrueNASClient.ForgetSubscription | src/aiotruenas/client.py:904-916 | the subscription ends with a terminator, and only if the connection it was made on is still current |
| Client.TrueNASClient.TeardownConnection | src/aiotruenas/client.py:411-423 | a reader that ends detaches its own connection and leaves a newer one alone |
| History.DetachOk | src/aiotruenas/client.py:425-448 | a detach keeps every invariant of the tables, futures, queues and message logs |
| History.RouteReplyOk | src/aiotruenas/client.py:365-380 | routing a reply, with a subscription registered by its hook, keeps them |
| History.RouteEventOk | src/aiotruenas/client.py:382-393 | routing a subscription notification keeps them: each queue stays the exact filter of its log |
| History.RouteCollectionOk | src/aiotruenas/client.py:395-409 | routing a collection notification keeps them |
| History.HalfRoutedOk | src/aiotruenas/client.py:401-403 | so does the first half of a collection update, after which other tasks may run |
| History.RouteUpdateOk | src/aiotruenas/client.py:405-409 | and the second half: no queue is fed the message twice |
| History.UntrackOk | src/aiotruenas/client.py:854-862 | the cleanup of a failed subscribe keeps them |
| History.ForgetOk | src/aiotruenas/client.py:904-916 | the local end of an unsubscribe keeps them |
| Safety.LocklessDetach | src/aiotruenas/client.py:639-644 | the detach and release without the lock keep every invariant of the tables, futures, queues and message logs, whoever holds the lock |
| Safety.LocklessOthers | src/aiotruenas/client.py:639-644 | and they keep what every other suspended task relies on, the lock holder included |
| Safety.StepInv | src/aiotruenas/client.py:472-916 | every step of every task and reader keeps the invariant, and no table lookup raises `KeyError` |
| Theorems.RunInv | src/aiotruenas/client.py:472-916 | the invariant holds in every state of every run from a new client |
| Theorems.LockHolder | src/aiotruenas/client.py:627-638 | a suspended holder of the lock is a connect with no current connection, a close that has detached its own socket, or a call sending on the current or a detached one |
| Theorems.LockWaitsEnd | src/aiotruenas/client.py:536-544 | no task waits for a lock it holds, and the private-methods lock is only ever taken before the main one, so chains of waiting tasks have at most two links |
| Theorems.NoOrphans | src/aiotruenas/client.py:744-766 | a call that waits on an undone future is pending and was sent on the current connection |
| Theorems.DetachFinishesCalls | src/aiotruenas/client.py:436-442 | whatever step detaches a connection finishes every call in flight on it, whether it waits for its reply or is still being sent |
| Theorems.TablesAgree | src/aiotruenas/client.py:834-838 | hooks belong to pending calls, both subscription tables have the same ids, every used request id is below the next one, every pending call has a task |
| Theorems.AnswerIsOwn | src/aiotruenas/client.py:365-380 | a call's answer is a reply with its own id that was routed on the connection it was sent on |
| Theorems.SocketAccounting | src/aiotruenas/client.py:494-516 | a socket has at most one owner, which is a task or the client's current connection, and one that is open has one unless its reader crashed |
| Theorems.QuietMeansReleased | src/aiotruenas/client.py:598-625 | with no operation in progress the only open socket is the current one, and both locks are free |
| Theorems.QueueHistory | src/aiotruenas/client.py:382-448 | a returned queue holds, once each and in order, the messages its connection routed for it after the subscribe reply and before its end, at most one more that was in flight then, and a terminator that is last; it is tracked or terminated, never both, and never neither unless the message its connection routed next after its end was a reply that gives its id to another request |
| Theorems.Isolation | src/aiotruenas/client.py:369-423 | a step of a connection that is not current, a queued unsubscribe or enable call for it included, leaves the current socket, its pending calls, hooks, subscriptions and their queues as they are |
| Progress.StepLater | src/aiotruenas/client.py:145-148 | ids only grow, a done future never changes, logs and queues are only appended to |
| Progress.RunLater | src/aiotruenas/client.py:145-148 | the same between any two states of a run |
| Progress.EndedQueueIsFrozen | src/aiotruenas/client.py:444-447 | a queue whose subscription has ended never changes again |
| Progress.AnsweredWhileCurrent | src/aiotruenas/client.py:369-380 | the only step that answers a call is its own connection's reader routing a reply with its id while that connection is current |
| Progress.MarkIsAnswered | src/aiotruenas/client.py:547-550 | the private-methods mark names the current connection, and the option was answered on it |
| Progress.NeverSentAgain | src/aiotruenas/client.py:537-541 | the option is never sent again on a connection once marked, in any later step of the run |
| Progress.OneEnableInFlight | src/aiotruenas/client.py:537-546 | at most one enable call has the option in flight |
| Progress.ConnectMarks | src/aiotruenas/client.py:497-516 | a connection published while the flag is set is marked at once, and the flag is never cleared |
| Witness.CrashLeaksSocket | src/aiotruenas/client.py:302-306 | a reader that stops on an unexpected error leaves an open socket that nobody owns |
| Witness.ReissuedIdOrphansQueue | src/aiotruenas/client.py:834-838 | a server that issues a tracked id again leaves a returned queue neither tracked nor terminated |
| Delivery.CollectionDelivered | src/aiotruenas/client.py:401-409 | routing a notification for a collection puts it, once, at the end of the queue of every subscription of the current connection whose event is the collection, or the part of it before its first colon, and changes no other queue |
| Delivery.UpdateDelivered | src/aiotruenas/client.py:405-409 | the second half of an update does so for the collection of its params, leaving out the queues that got it in the first half |
| Delivery.EventDelivered | src/aiotruenas/client.py:382-393 | a notification with a subscription id is put, once, into the queue tracked under that id and into no other |
| Delivery.OldDeliversNothing | src/aiotruenas/client.py:365-409 | a connection that is not current delivers nothing |
| Delivery.ReceivedOnce | src/aiotruenas/client.py:285-409 | in every run, by the time a reader waits for its next message, the last one is in the queue of exactly those subscriptions it was meant for, once, whatever other tasks did meanwhile |
| Outcomes.CloseDisconnects | src/aiotruenas/client.py:568-582 | a `close()` that gets the lock with a connection there leaves the client with none: every call in flight is finished, every tracked queue has one terminator at its end, and it goes on to release the socket |
| Outcomes.TimeoutDisconnects | src/aiotruenas/client.py:627-648 | so does a timed-out call whose connection is current when it gets the lock |
| Outcomes.LocklessDisconnects | src/aiotruenas/client.py:639-644 | and one cancelled while it waits for the lock, which also releases the socket at once |
| Outcomes.SendFailureDisconnects | src/aiotruenas/client.py:737-742 | and a call whose send fails |
| Outcomes.LossDisconnects | src/aiotruenas/client.py:411-423 | and the reader of a lost connection |
| Outcomes.DisconnectsExactly | src/aiotruenas/client.py:472-916 | the current connection is lost by these steps and by no other |
| Outcomes.CloseReleases | src/aiotruenas/client.py:568-608 | in every run, when a `close()` that got the lock ends, however its awaits end, the socket that was current then is released |
| Outcomes.TimeoutReleases | src/aiotruenas/client.py:610-648 | so it is when a timed-out call that found its connection current ends |
| Outcomes.TimeoutLosesConnection | src/aiotruenas/client.py:744-766 | in every run, once a call that timed out is over, the connection it was sent on is not current and never will be again |
| Outcomes.ForgetEnds | src/aiotruenas/client.py:904-916 | the last step of an unsubscribe takes the id out of both tables and puts a terminator at the end of its queue, if its connection is still current; otherwise it changes nothing |
| Outcomes.UnsubscribeEnds | src/aiotruenas/client.py:884-916 | in every run, when an `unsubscribe()` from a tracked id ends, its queue is no longer tracked, except if the server refused or the caller was cancelled again while it waited for the lock |
| Service.Connects | src/aiotruenas/client.py:490-516 | `connect()` on a free client can run to its end: a new socket is then current with its reader running, and marked if the private-methods flag is set |
| Service.AnswerDelivered | src/aiotruenas/client.py:365-380 | a reply to a call in flight on the current connection finishes that call with the reply, and if the call is a `subscribe()` and the reply gives an id, tracks its queue under it |
| Service.Calls | src/aiotruenas/client.py:675-775 | a call with the lock free and its reply next gets that reply and leaves nothing behind |
| Service.SubscribeAnswered | src/aiotruenas/client.py:840-863 | a `subscribe()` returns its queue exactly if the reply gives a subscription id and its connection is still current; otherwise the queue is untracked |
| Service.Subscribes | src/aiotruenas/client.py:827-863 | the whole of a `subscribe()`: a new empty queue is tracked under the id the server gave and returned |
| Service.Unsubscribes | src/aiotruenas/client.py:884-916 | the whole of an `unsubscribe()`: the id is gone and its queue terminated, or, if the server refuses, everything stays |
| Service.Enables | src/aiotruenas/client.py:536-550 | the whole of an `enable_private_methods()`: the connection is marked, the option having been answered on it; on a marked one nothing is sent |
| Normalize.ParseApi | src/aiotruenas/domain/_normalize.py:188-260 | the keyed mapping loop computes the closed form, in the same dictionary object except for an empty list, which gives a new one and leaves the given one alone; every record it adds is new |
| Normalize.Endpoint.DeepCopy | src/aiotruenas/domain/state.py:885-885 | a deep copy has the same contents in a new dictionary object with new records |
| Normalize.ParseCopy | src/aiotruenas/domain/state.py:884-889 | parsing into a deep copy gives the closed form in a map that is new, with records that are new, and writes to nothing else |
| Normalize.Endpoint.ResolveTarget | src/aiotruenas/domain/_normalize.py:530-543 | there is a record at the uid, a new one if there was none and otherwise the same object; either is in the map under that uid only |
| Normalize.Record.FillVals | src/aiotruenas/domain/_normalize.py:549-560 | the record's mapped fields come from the entry, its others stay |
| Normalize.Record.FillEnsureVals | src/aiotruenas/domain/_normalize.py:566-578 | an ensured field is only set where it is absent |
| Normalize.Endpoint.PruneStaleUids | src/aiotruenas/domain/_normalize.py:266-273 | exactly the unseen records are deleted |
| Normalize.Endpoint.ApplyEntries | src/aiotruenas/domain/_normalize.py:223-250 | the order-dependent loop only depends on the last unfiltered entry of each uid |
| Normalize.AppliedTwice | src/aiotruenas/domain/_normalize.py:347-362 | of two entries for one record only the later one shows |
| Mapping.LastIsLast | src/aiotruenas/domain/_normalize.py:225-250 | the entry a record is made from is the one after which none writes it |
| Mapping.MappedByLastSpec | src/aiotruenas/domain/_normalize.py:549-560 | of several specs for one field the last one gives it |
| Mapping.ParsedKeys | src/aiotruenas/domain/_normalize.py:225-260 | the records after a parse are those seen that existed before or have an unfiltered entry |
| Mapping.FieldOrigin | src/aiotruenas/domain/_normalize.py:347-362 | a mapped field comes only from the last unfiltered entry, any other from before, an ensured one from its default if it was not there |
| Mapping.FilteredIsUntouched | src/aiotruenas/domain/_normalize.py:226-235 | a record that is present but filtered out is neither pruned nor changed |
| Mapping.PartialSourceKeeps | src/aiotruenas/domain/_normalize.py:202-205 | without pruning, a record outside the response stays |
| Mapping.ParsedIdempotent | src/aiotruenas/domain/_normalize.py:188-260 | parsing the same response again changes nothing |
| Mapping.UsableAgrees | src/aiotruenas/domain/state.py:2473-2498 | an unusable response leaves every map as it is, and after a usable one the records are exactly the response's |
| Mapping.UsableRecords | src/aiotruenas/domain/_normalize.py:347-362 | each of those is made from the last entry with its uid |
| Mapping.UsableIffChanges | src/aiotruenas/domain/state.py:2473-2498 | a response is usable exactly if it changes some map of records |
| Values.ResolveFinds | src/aiotruenas/domain/_normalize.py:86-97 | a source is found exactly where following its keys, one for each part of an "a/b" path, leads |
| Values.PlainValue | src/aiotruenas/domain/_normalize.py:103-120 | a plain field is what is at its source, a text cut to its first 255 characters, or its default where nothing is |
| Values.CoerceReads | src/aiotruenas/domain/_normalize.py:126-135 | a value counts as a boolean if it is one, or is a text that is one of ten tokens in any case and with any blanks around it; anything else counts as the default |
| Values.FlagValue | src/aiotruenas/domain/_normalize.py:141-153 | a flag is the boolean its source counts as, reversed if its spec says so; with no source it is the reversed default |
| Values.KeysAgree | src/aiotruenas/domain/_normalize.py:393-393 | values are one key exactly if Python finds them equal; lists and dictionaries are none |
| Values.UidIs | src/aiotruenas/domain/_normalize.py:368-393 | an entry is known by its key field or, where it has none, by the secondary one, unless that is null |
| Values.TextFilters | src/aiotruenas/domain/_normalize.py:425-449 | an entry is filtered out by a text it must have and has not, must not have and has, or, for an empty one, by a missing field |
| Values.UsableIff | src/aiotruenas/domain/state.py:2473-2486 | a response counts as an answer exactly if it is an empty list, a list with at least one entry that can be known by its key, or one such entry alone |
| Values.PublishedFlag | src/aiotruenas/domain/_normalize.py:188-260 | a flag in a parsed map is the boolean at its source in the last entry of its record, as `Values.FlagValue` has it |
| Values.PublishedValue | src/aiotruenas/domain/_normalize.py:188-260 | a plain value in a parsed map is the one at its source in that entry, as `Values.PlainValue` has it |
| Values.PublishedDefault | src/aiotruenas/domain/_normalize.py:566-578 | a field that is only ensured keeps what the record had, and otherwise takes the first default given for it, a flag's reversed if its spec says so |
| Capacity.SetCapacity | src/aiotruenas/domain/state.py:1129-1177 | the figures are written into the record in place, as the specification function says |
| Capacity.CapacityCoherent | src/aiotruenas/domain/state.py:1129-1177 | the six figures are all unknown, or total > 0, 0 <= available <= total, size = total, allocated + available = total, and usage is the used share in percent, within one half; known exactly if the source of the figures gives plausible ones |
| Capacity.UsageIsRounded | src/aiotruenas/domain/state.py:1177-1177 | the usage is the used share in percent, rounded as Python rounds |
| Capacity.RootFigures | src/aiotruenas/domain/state.py:1134-1137 | with a root dataset that is not empty, available is its available and allocated its used, unless they are missing, both zero or negative |
| Capacity.OwnFigures | src/aiotruenas/domain/state.py:455-470 | without one, available is the pool's free and total its size or, where that is no positive number, free and allocated together; unknown exactly if these are missing or contradict each other |
| Capacity.CapacityFrame | src/aiotruenas/domain/state.py:1129-1177 | no other field changes |
| Capacity.CapacityIdempotent | src/aiotruenas/domain/state.py:1129-1177 | applying it to its own result with the same root dataset changes nothing |
| Capacity.RoundHalfEvenClose | src/aiotruenas/domain/state.py:1177-1177 | rounding is to the nearest whole number, and to an even one if two are nearest |
| Capacity.FinishedIdempotent | src/aiotruenas/domain/state.py:1000-1004 | computing a published record's figures again changes nothing |
| Refresh.ApplyPoolErrors | src/aiotruenas/domain/state.py:1179-1198 | each record takes the error totals of the last raw pool with its guid, in place |
| Refresh.BuildIndex | src/aiotruenas/domain/state.py:966-971 | the lookup has every usable mountpoint, each with the very record of a dataset mounted there |
| Refresh.FinishPools | src/aiotruenas/domain/state.py:981-1004 | every record gets its figures in place from its own root dataset, and no dataset is written; the result says whether an outdated dataset was used |
| Refresh.TrueNASState.NoteFallbackOutcome | src/aiotruenas/domain/state.py:2396-2440 | the flag is up exactly if the outcome was a failure, the others stay |
| Refresh.TrueNASState.ComputeDataset | src/aiotruenas/domain/state.py:864-889 | the next dataset map, a new map of new records; neither the published map nor a record in it is written |
| Refresh.TrueNASState.RefreshDataset | src/aiotruenas/domain/state.py:845-862 | the state after `get_dataset`; the map it publishes and its records are new, and the maps published before, with every record in them, stay as they were |
| Refresh.TrueNASState.AddBootPool | src/aiotruenas/domain/state.py:1057-1094 | the boot pool is merged, carried over or left out, with its flag and uid; a carried-over entry is a new record, and the published map is not written |
| Refresh.TrueNASState.RefreshPool | src/aiotruenas/domain/state.py:913-1021 | the state after `get_pool` for any answers and exceptions; both maps are replaced by new ones of new records, none of them in both maps, or neither is, and the maps published before, with every record in them, stay as they were |
| Pools.AfterOk | src/aiotruenas/domain/state.py:1057-1094 | every refresh keeps the remembered boot pool in the published map, and its flag down while there is none |
| Snapshots.FlagsAreExact | src/aiotruenas/domain/state.py:882-1021 | over every run, wherever calls raise, each of the five flags is up exactly if the last refresh to get as far as deciding it found its fault; for the boot-pool flag, that the boot pool was carried over |
| Snapshots.ExactStaleness | src/aiotruenas/domain/state.py:824-831 | over every run without exceptions, "dataset" is stale exactly if the last refresh brought in no new map, and "pool" exactly if the last `get_pool` kept the old map, carried the boot pool over, or took a capacity from an outdated dataset |
| Snapshots.DatasetOutcome | src/aiotruenas/domain/state.py:882-889 | every refresh brings in exactly the datasets of its answer, or leaves the map as it is |
| Snapshots.DatasetIsLastFresh | src/aiotruenas/domain/state.py:864-889 | until a refresh brings in a new one, the dataset map is the last fresh one |
| Snapshots.UnpublishedKeeps | src/aiotruenas/domain/state.py:913-949 | a `get_pool` that does not publish, for whatever reason, changes neither map |
| Snapshots.UnflaggedFallback | src/aiotruenas/domain/state.py:913-961 | exactly when a `get_pool` that an exception ends brings in no datasets and yet leaves "dataset" unflagged |
| Snapshots.RaiseHidesStaleness | src/aiotruenas/domain/state.py:945-961 | a run in which an exception from `boot.get_state` clears both names although no map was brought in |
| Snapshots.BootPoolPersists | src/aiotruenas/domain/state.py:1065-1071 | once a boot pool has merged, the remembered one is in the published map in every later state |
| Snapshots.CarriedEntryIsKept | src/aiotruenas/domain/state.py:1065-1071 | in every run, an entry that some refresh published without a root dataset, and that is carried over without one from then on, is republished unchanged for as long as that lasts |
| Snapshots.LostRootEntry | src/aiotruenas/domain/state.py:981-1004 | in every run, an entry that some refresh published, with a root dataset or not, and that is then carried over without one, is republished unchanged exactly if its figures are unknown or its own free figure agrees with them |
| Snapshots.LostRootKeeps | src/aiotruenas/domain/state.py:981-1004 | the same for one step: exactly when an entry that loses its root dataset keeps its figures |
| Snapshots.PoolsAndDatasetsAgree | src/aiotruenas/domain/state.py:898-912 | in every run of `get_pool`, however its calls fail, the published pools are what the published datasets make them |
| Snapshots.PoolsAgreeWithTheirDatasets | src/aiotruenas/domain/state.py:898-912 | in every run that also has `get_dataset` calls, the published pools are what the dataset map published with them made them |
| Snapshots.SettledFigures | src/aiotruenas/domain/state.py:1129-1177 | what that means: available and allocated are the root dataset's available and used |
| Snapshots.FiguresAlwaysCoherent | src/aiotruenas/domain/state.py:1129-1177 | in every state of every run each published pool's figures are coherent or all unknown |
| Contents.DatasetsAre | src/aiotruenas/domain/state.py:864-889 | a refresh leaves exactly the datasets of its answer, known by their ids, if it was given any and does not end unpublished; otherwise the map stays |
| Contents.DatasetField | src/aiotruenas/domain/state.py:884-889 | each mapped field of such a dataset is what the last entry with its id gives |
| Contents.PoolOutcome | src/aiotruenas/domain/state.py:951-959 | after a `get_pool` that publishes there are exactly the pools of its `pool.query` and the boot pool: that of its `boot.get_state` or, if it has none, the remembered one |
| Contents.PoolField | src/aiotruenas/domain/state.py:951-959 | in each of them but the boot pool, every mapped field outside the figures, the error counts and the fragmentation is what the last raw entry with its guid gives |
| Contents.PoolErrors | src/aiotruenas/domain/state.py:1193-1198 | the error counts are those of that entry's topology, and "errors" is their sum |
| Contents.NumbersRead | src/aiotruenas/domain/_helpers.py:56-66 | a count is read from a whole number, a broken one, or a text with any sign and blanks; nothing else is one |
| Contents.PoolFragmentation | src/aiotruenas/domain/state.py:999-1001 | the fragmentation is the number the raw entry gives, "48" included, and 0 if it gives none |
| Contents.BootField | src/aiotruenas/domain/state.py:1058-1090 | the boot pool has the mapped fields and error counts of the state it was given, with its name as guid and id where it has none |
| Contents.BootIsCarried | src/aiotruenas/domain/state.py:1065-1079 | when no state is given, the remembered boot pool keeps every field but the figures and the fragmentation |
| Contents.PoolOwnFigures | src/aiotruenas/domain/state.py:1129-1177 | a pool that no dataset is the root of has the figures of its own raw entry |
| Contents.PoolFigures | src/aiotruenas/domain/state.py:967-997 | in every run each published pool has the figures of a dataset mounted at its path or, if there is none, of the dataset called like it, in the dataset map published with it |
| Contents.PoolIsLastPublished | src/aiotruenas/domain/state.py:913-949 | until another `get_pool` publishes, the pools and the remembered boot pool are the last ones published |
| Contents.PoolsAreTheLastAnswer | src/aiotruenas/domain/state.py:913-1021 | in every run the pools are those of the last `get_pool` that published, and the remembered boot pool |
| Contents.BootPoolIsTheLast | src/aiotruenas/domain/state.py:1081-1081 | in every run the remembered boot pool is that of the last published answer that had one |
| Staleness.PoolIsStale | src/aiotruenas/domain/state.py:913-1017 | in every run without exceptions "pool" is stale exactly if the last `get_pool` was given no list of pools, or no boot pool while one was remembered, or no datasets while some pool has a root dataset |
| Staleness.DatasetIsStale | src/aiotruenas/domain/state.py:864-949 | and "dataset" exactly if the last refresh was given no datasets, or was a `get_pool` that was given no list of pools |
| Endpoints.Derive | src/aiotruenas/domain/state.py:1551-1558 | every record gets its derived fields in place; it stops exactly if some record raises |
| Endpoints.Cache.Refresh | src/aiotruenas/domain/state.py:2008-2040 | the endpoint's map and staleness after a refresh |
| Endpoints.DerivedIdempotent | src/aiotruenas/domain/state.py:1551-1558 | deriving the fields of a cached record again changes nothing, other than for virtual machines |
| Endpoints.StaleIffUnusable | src/aiotruenas/domain/state.py:2473-2498 | over every run, an endpoint is stale exactly if its last answer was unusable |
| Endpoints.StaleIsLastFresh | src/aiotruenas/domain/state.py:1541-1559 | while it is stale its records are the last fresh ones, an interface's rx and tx aside |
| Endpoints.FreshIsTheAnswer | src/aiotruenas/domain/state.py:1541-1559 | after a usable answer it has exactly the answer's records, each made from the last entry with its uid |
| Endpoints.OnlyUnreadableRaise | src/aiotruenas/domain/state.py:1551-1586 | after any run a refresh raises exactly if some service has neither a name nor an id that can be looked up, or some virtual machine a memory reading that is not a finite number |
| Endpoints.StaleMachinesDrift | src/aiotruenas/domain/state.py:1568-1587 | in every run, a `get_vm` refresh with an unusable answer leaves `vm` stale with the same machines, and a machine's record stays as it was exactly if its memory reads zero |
| Endpoints.EightGibibytes | src/aiotruenas/domain/state.py:1568-1587 | such a run: a machine of 8 GiB reads 8388608, and 8192 after an unusable answer |
| Records.RecordsAre | src/aiotruenas/domain/state.py:2473-2498 | a refresh with an answer leaves the endpoint fresh with exactly the answer's records, any other leaves it stale with those it had |
| Records.IsStale | src/aiotruenas/domain/state.py:2473-2498 | in every run an endpoint is stale exactly if its last refresh was given no answer |
| Records.ScrubEnabled | src/aiotruenas/domain/state.py:2032-2040 | a scrub task is published as enabled as its entry says, whether by a boolean or by a token, and otherwise as not enabled |
| Records.ServiceRuns | src/aiotruenas/domain/state.py:1552-1552 | a service is running exactly if its entry has the state "RUNNING" |
| Records.ServiceNamed | src/aiotruenas/domain/state.py:1553-1558 | a service is shown under its own name if it has one |
| Records.ServiceUnnamed | src/aiotruenas/domain/state.py:1553-1558 | otherwise under the name known for its id or, where none is, the id |
| Records.LinkIsUp | src/aiotruenas/domain/state.py:2020-2021 | a link is up exactly if the nested link state is "LINK_STATE_UP" |
| Records.MachineRuns | src/aiotruenas/domain/state.py:1586-1586 | a virtual machine is running exactly if its nested status is "RUNNING" |
| Records.MachineMemory | src/aiotruenas/domain/state.py:1582-1585 | its memory is the 1024th part of what its entry says, to the nearest whole number |
| Records.RaisesExactly | src/aiotruenas/domain/state.py:1551-1586 | after any run a refresh raises exactly if some service has nothing for a name and a list or dictionary for an id, or some machine's memory is neither null nor a boolean nor a number that can be divided |
| Ups.FieldsAreDistinct | src/aiotruenas/domain/state.py:156-164 | each UPS graph has a field of its own |
| Ups.UpsState.ApplyResult | src/aiotruenas/domain/state.py:1360-1396 | a graph's value and failing key after each kind of result: a server error, another exception, a reading, a recognisable but empty window, anything else |
| Ups.UpsState.QueryGraphs | src/aiotruenas/domain/state.py:1398-1419 | one value or none per graph, unless some result is re-raised |
| Ups.UpsState.Seed | src/aiotruenas/domain/state.py:1503-1507 | exactly the graphs still found keep their previous value |
| Ups.UpsState.Overlay | src/aiotruenas/domain/state.py:1508-1526 | values replace seeded ones, and a graph without one is outdated exactly if it was seeded |
| Ups.UpsState.GetUps | src/aiotruenas/domain/state.py:1432-1529 | the state after `get_ups` |
| Ups.FieldIsLastReading | src/aiotruenas/domain/state.py:1503-1527 | over every run, each published field is its graph's last usable reading since a successful discovery last dropped the graph, and exists exactly if there is one |
| Ups.StaleGraphs | src/aiotruenas/domain/state.py:1310-1323 | a graph is named outdated exactly if it has a field that the last call to run to its end did not read |
| Ups.FreshMeansRead | src/aiotruenas/domain/state.py:824-831 | while "ups" is not stale, the last such call read every published field |
| Ups.FailingKeys | src/aiotruenas/domain/state.py:1476-1485 | a failing key only exists for a graph of the last successful discovery, and exactly for those that failed if all results were processed |
| Ups.GraphOutcome | src/aiotruenas/domain/state.py:1432-1529 | in a `get_ups` that runs to its end, a listed graph with a value has it in the field of its own name and is neither failing nor outdated; one without keeps its value, is outdated if it has one, and failing exactly if its query failed or its answer made no sense; an unlisted one is dropped |
| Ups.UnfinishedKeeps | src/aiotruenas/domain/state.py:1432-1500 | where an exception or a malformed list of graphs ends it, the published values stay |
| Series.RawSeriesMeans | src/aiotruenas/system.py:187-209 | the nested loops compute the average of each series' samples |
| Series.SeriesMeans | src/aiotruenas/system.py:212-242 | the loop with its lazy fallback computes each series' mean |
| Series.MeanIsColumnAverage | src/aiotruenas/system.py:187-242 | a series with an aggregated mean takes it; any other takes the average of exactly the finite values of its own columns over the points of the right width, even where the legend lists its name twice |
| Series.AverageIs | src/aiotruenas/system.py:187-209 | an average, times the number of its values, is their sum |
| Series.OneSeries | src/aiotruenas/system.py:187-242 | a graph with one series of (time, value) points has the average of the values as its only mean |
| Series.AggregatedCounts | src/aiotruenas/system.py:212-242 | an aggregated mean counts before that average |
| Series.TimeColumnIsIrrelevant | src/aiotruenas/system.py:190-205 | wherever the legend lists the time column, or leaves it out, every mean is the same |
| Text.SplitJoin | src/aiotruenas/domain/_helpers.py:211-211 | splitting at commas undoes joining with commas |
| Text.ParseIntPrint | src/aiotruenas/domain/_helpers.py:217-220 | a printed number is read back, whatever blanks surround it |
| Cpuset.CpusetSize | src/aiotruenas/domain/_helpers.py:202-224 | the loop adds up the sizes of the segments that can be read |
| Cpuset.SizeCountsDistinct | src/aiotruenas/domain/_helpers.py:202-224 | for every cpuset text the size is at least the number of distinct CPUs, and equal exactly if no two segments overlap |
| Cpuset.PrintedReads | src/aiotruenas/domain/_helpers.py:212-223 | a printed CPU or range is read back as what it stands for |
| Cpuset.SizeOfPrinted | src/aiotruenas/domain/_helpers.py:202-224 | ranges printed with any blanks, and any empty or malformed segments in between, give the number of CPUs exactly if no two ranges overlap |
| BootEpoch.StableIsClose | src/aiotruenas/domain/_helpers.py:459-476 | whatever was published before, an uptime that is a finite number within the range of a float gives an epoch within 300 seconds of the computed one |
| BootEpoch.SystemInfo.GetSystemInfo | src/aiotruenas/domain/state.py:2607-2671 | the system information after a refresh |
| BootEpoch.SystemInfoFits | src/aiotruenas/domain/_specs.py:474-494 | the spec tables take the uptime from the answer but never the epoch |
| BootEpoch.ParseKeepsEpoch | src/aiotruenas/domain/state.py:2627-2632 | the keyless parse preserves the published epoch between polls |
| BootEpoch.EpochStep | src/aiotruenas/domain/state.py:2661-2671 | the published epoch stays unless the computed one is more than 300 seconds away, and then becomes it |
| BootEpoch.EpochIsClose | src/aiotruenas/domain/state.py:2661-2671 | in every run, a refresh with such an uptime leaves the published epoch within 300 seconds of the one it computed |
| BootEpoch.ChangesAtMostOnce | src/aiotruenas/domain/_helpers.py:459-476 | in a run whose computed epochs span at most 300 seconds the published epoch changes at most once |
| BootEpoch.SystemInfoReadsUptime | src/aiotruenas/domain/_specs.py:474-494 | the spec tables take the uptime from the answer's field of that name |
| BootEpoch.EpochIsBootTime | src/aiotruenas/domain/state.py:2661-2671 | in every run, after a refresh whose answer gives a finite uptime, the published boot time is less than 301 seconds from the clock less that uptime: 300 for the damping and less than one for the truncation |
| BootEpoch.EpochStays | src/aiotruenas/domain/state.py:2661-2671 | an answer whose uptime is no number, or negative, leaves it alone |
| BootEpoch.StartedOnce | src/aiotruenas/domain/_helpers.py:459-476 | in a run whose answers put the start of the system within 300 seconds of each other, the published boot time changes at most once |
| BootEpoch.WiderSpanChangesTwice | src/aiotruenas/domain/_helpers.py:459-476 | no wider span will do: for any excess there is a run in which it changes twice |
| BootEpoch.InfoIsTheAnswer | src/aiotruenas/domain/state.py:2627-2659 | every other field is as the answer gives it, and a positive memory is the total memory |

## Left out

The client:

- Opening, TLS, DNS, the websocket handshake and JSON encoding: they succeed, fail or are interrupted.
- Reading from queues (`get_subscription_events`, `_drain_events`): a queue is everything ever put into it.
- The order in which tasks waiting for a lock get it; any of them may be next.
- That an operation ends while others keep the lock or the server is silent: `Service` has the lock free and the reply next, `Outcomes` says what holds whenever an operation does end.
- Job polling (`_wait_for_job`), `is_subscribed`, and the text and class of errors.
- Replies with a boolean id, which Python takes for an integer; ids are integers or strings.
- Futures and queues are named by the request id they belong to, so one object is never two.
- Theorems.SocketAccounting: a socket whose reader stopped on an unexpected error is excepted, because the reader's teardown only detaches it (`Witness.CrashLeaksSocket`).
- Theorems.QueueHistory: a queue whose id the server issued again while it was tracked is excepted, because the code then forgets it (`Witness.ReissuedIdOrphansQueue`).

The cached state:

- `key_search`, `default_val` and `val_proc` of the mapping engine; no endpoint modelled here uses them.
- The order of dictionaries. Where it decides (two datasets at one mountpoint, UPS graphs before a crash) every order is allowed.
- Normalize.ParseApi: date conversions are arbitrary functions of one value, because the calendar plays no role in the mapping.
- Values nested in containers are compared as written, not by Python's numeric equality; only filters compare them.
- Sums over a pool's topology tree: they are an arbitrary function of it. Spec tables of pools and datasets are arbitrary too, so every statement holds for all of them.
- Python's limit of 4300 digits for `int(str)`, and decimal digits other than 0 to 9.
- Capacity.CapacityCoherent: the percentage is rounded from the exact quotient, because floating-point error is not modelled; infinities and NaN are.
- Lists and dictionaries nested inside a record: they are values, so only maps and records are objects that can be shared.
- Endpoints.Derive: which records a failing `get_service` or `get_vm` has already reached is not stated, because it depends on the dictionary's order; runs are of refreshes that end normally.
- Endpoints.StaleMachinesDrift: a memory reading is divided exactly, because floating-point error is not modelled.
- Ups.UpsState.GetUps: the value `_ups_value` reads off a payload is an arbitrary function of it, so every statement holds for all of them.
- The remaining `get_*` endpoints, disk temperatures and alerts, which are straight-line code over the same engine; containers, whose loops compute their figures again as `get_vm` does.

Arithmetic:

- Series.RawSeriesMeans: sums are exact, so the filter for a mean that overflowed is not needed.
- BootEpoch.StableIsClose: a previous epoch that is NaN raises in the code and is excluded; the published one is always an integer (`BootEpoch.EpochIsWhole`).
