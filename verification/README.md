# minicomps in Dafny

minicomps is an in-process message-passing runtime in C++. Components own handlers and a default executor;
queries and events travel between them through lock-guarded work queues, a broker knows who answers which
message, and references cache what the broker said. This project models those mechanisms and proves what they
promise over whole runs.

| file | what it models |
|---|---|
| `Common.dfy` | options, identities, folding a log |
| `Executor.dfy` | the double-buffered work queue: as atomic steps, as threads around a mutex, as an object |
| `Lifetimes.dfy` | lifetimes and the weak pointers taken from them |
| `CallbackResults.dfy` | what sending, replying and running a response do; a query's and a result's objects |
| `Protocol.dfy` | asynchronous queries over all executors, results and lifetimes: confinement, conservation, cancellation |
| `Ordering.dfy`, `Elision.dfy`, `Direct.dfy` | end-to-end order through two queues, and the direct path against the queued one |
| `Termination.dfy`, `Draining.dfy` | that queues run dry: on every run of the protocol, and in rounds of `execute()` calls |
| `Broker.dfy` | the copy-on-write broker |
| `References.dfy`, `Coherence.dfy`, `Publishing.dfy`, `Staleness.dfy`, `Components.dfy` | cached references: their lookups, all runs of them among changing components, that they find what was published, what stale ones come to, and the objects |
| `Queries.dfy` | the lookup of a reference and the path a query takes, together |
| `Filters.dfy` | filter chains and which chain a queued query runs through |
| `Events.dfy` | event fan-out |
| `SyncCalls.dfy`, `SyncQueries.dfy` | locked synchronous calls between threads: mutual exclusion, listener logs, deadlock; and the call operators |
| `Storage.dfy`, `Cells.dfy`, `FixedAnys.dfy` | payload storage: alignment, the account of constructed and destroyed payloads, the objects |

User code is left open wherever the source leaves it open. In `Protocol` any component may send at any moment,
any handler that holds a result may reply late, repeatedly or never, and any lifetime may be created, copied,
reset or destroyed. In `Coherence` components come, publish, add filters, unpublish and go in any order between
lookups. In `SyncCalls` handlers call on to any depth. Threads are interleaved step by step.

Every lemma carries `{:induction false}`: where a proof goes by induction, the induction is written out.

The objects whose methods update fields in place are classes (`WorkQueue`, `LifetimeTable`, `CallbackResult`,
`AsyncQuery`, `Broker`, `Component`, `MonoRef`, `PolyRef`, `InterfaceRef`, `FilteredComponent`, `EventSender`,
`Thread`, `Heap`, `FixedAny`, `TaskVector`). Each method is proved against a function of the state before, and
what that function promises is proved over all runs.

## Findings

Where a promise of the code has a limit, an input that shows it is given and, except for deadlock, the exact
condition under which the promise holds. The one documented promise that is only noted is the last in this list.

- A handler that replies repeatedly through one result reaches the callback every time on the direct path and
  only the first time on the queued path. The two agree if and only if it replies at most once or the lifetime has
  expired (`PathsAgreeOnReplies`).
- `mono_ref` keeps its old handler when a refetch finds no single living receiver
  (include/minicomps/mono_ref.h:52-61). After such an exit the next lookup answers with the old handler although
  nothing is registered. A lookup agrees with resolving afresh if and only if that has not happened since the last
  reset, or the snapshot fetched then has been replaced (`MonoLookupsAreFresh`); publishing a message a second time
  is enough to bring it about (`SecondPublisherTaints`). A lookup that forgets its handler first has no such
  condition (`ClearingStaysCoherent`).
- Such a reference may have dropped its receiver as well. It then answers with the handler of a component that it
  does not hold. `sync_query` checks the handler only and goes on to use the receiver
  (include/minicomps/sync_query.h:33-61); `async_query` checks both and aborts
  (include/minicomps/async_query.h:128-134). That happens if and only if the reference is tainted and has no receiver
  (`LookupsHoldReceivers`). Any resolved reference can get there (`ReceiverLost`), by a lookup that falls between the
  end of the only component listed and the removal of its associations (include/minicomps/component_base.h:45-49).
  Handler and receiver in a reference, where it has both, always belong together (`HandlersBelong`). An asynchronous
  query goes where it should if and only if its reference is not tainted or has no receiver
  (`QueriesReachTheirReceiver`).
- `interface_ref` keeps its proxy likewise (`InterfaceLookupsAreFresh`, `SecondPublisherTaintsLink`), and on one exit
  more, a receiver without the interface (include/minicomps/interface_ref.h:51-53). That exit is not reached as long
  as its id is published as an interface only and publishing is one step (`ExtraExitUnreached`). Calls through its
  queries go where they should if and only if the link is not tainted, or its proxy does not have the query
  (`InterfaceCallsReachTheirReceiver`). Their plain pointers to the component (include/minicomps/if_async_query.h:225-226)
  are backed by the link's own strong one exactly unless it is tainted and has lost it (`LinkLookupsHoldReceivers`).
- A handler that a send runs at once may make its sender send again. What the inner send has for a receiver then
  comes before what the outer one still has for it: events are delivered exactly once on every run
  (`EventsExactlyOnce`), but in the order of the sends if and only if no such inner send takes place
  (`EventsInOrder`, `SendWithinSend`).
- `poly_ref` is always fresh, but only because a subscription is one step; the code associates first and installs
  the handler afterwards. A lookup between the two misses the subscriber exactly if it finds any other target; if it
  finds none it looks up again next time (`SubscribingMustBeAtomic`).
- Executing executors one at a time, in some order, empties all queues if and only if every executor with work has its
  turn, and after it every executor that its requests are to be answered on (`DrainsExactly`). One round need not do
  that; two rounds always do (`OneRoundMayNotDrain`, `TwoRoundsDrain`), also where turns overlap and threads interleave
  in any way (`TwoRoundsLeaveNothing`).
- Moving a payload by its offset keeps it aligned between all storages if and only if its alignment divides the
  storages' alignment (`RebasingExact`).
- The flag `allow_direct_call_async` is documented for all asynchronous queries (include/minicomps/component.h:86) but
  read for those of interfaces only (include/minicomps/if_async_query.h:57-60). Proxies respect it on every run
  (`ProxiesCallAsAllowed`). A query through a reference respects it if and only if it goes to another executor or
  direct calls are allowed (`SentAsAllowed`, `SentDirectlyAllTheSame`).
- Locked calls that each go up some ranking of components can still deadlock once a component that is already locked
  is called again and calls on (`ClimbingMayDeadlock`). That each goes above everything its thread has locked, or into
  something it has locked, is a sufficient rule (`NoDeadlock`), not a necessary one. Looking a handler up takes the
  receiver's lock too (include/minicomps/component_base.h:293-331), so lookups are bound by the same rule.
- `allow_locking_calls_sync` is documented to forbid locked calls (include/minicomps/component.h:87) and read nowhere. It
  is not in the model, and nothing is proved about it.

## Assumptions

- There is one consumer for each executor, and no task calls `execute()` on its own executor.
- Nothing throws. Payloads are plain values, and their types are not over-aligned.
- A component outlives whatever is queued for it, and identities are not reused. Handlers do not copy the result they are given.
- Publishing, subscribing or adding a filter, with its association or invalidation, is one step; so is a lookup.
- Only the broker owns snapshots, so a snapshot is expired once it is replaced.
- The queries of an interface, with their handlers' executors, are settled when the interface is published; publishing
  one of them later, or again, is no action of the model. `allow_direct_call_async` keeps the value it has when the
  component is created.
- Order and meaning of a lane of queries (`Ordering`, `Elision`): the handlers of that lane reply before they return.
  Those of all other queries reply whenever they like.
- A message is published once by a component where chains of filters are concerned.
- Nobody subscribes to a message from within a handler that a send of that message is running, and a component's
  sends are made on one thread at a time, so that one within another ends before it.

## Model

| member | source | states |
|---|---|---|
| Executor.FifoExactlyOnce | include/minicomps/executor.h:22-48 | After any interleaving of appends, swaps, task starts and clears: the executed ones are the first appended, the rest is queued in order, and an idle empty queue has run all |
| Executor.OneExecuteRunsWhatTheSwapTook | include/minicomps/executor.h:35-48 | Between a swap and its clear exactly what was present at the swap is run; what is appended meanwhile waits |
| Executor.ThreadsRefineQueue | include/minicomps/executor.h:22-48 | Any number of producer threads and one consumer, with the mutex and half-built cells spelled out, behave as a run of the atomic queue, appending in lock order |
| Executor.MoveRefines | include/minicomps/executor.h:22-48 | One move of one thread is one atomic step of the queue or none |
| Executor.MoveKeepsSound | include/minicomps/executor.h:22-48 | The lock is held by exactly the thread in its section, and every cell but the one being built holds function and data |
| Executor.GrowthMovesFullCellsOnly | include/minicomps/executor.h:29-32 | When the vector may grow, every cell in it is full, so each move has something to move |
| Executor.RunsFullCellsOnly | include/minicomps/executor.h:43-47 | The consumer only runs cells whose function and data are set |
| Executor.WorkQueue.EnqueueWork | include/minicomps/executor.h:22-33 | Appends one item at the end and changes nothing else |
| Executor.WorkQueue.Execute | include/minicomps/executor.h:35-48 | Runs the items waiting at the call, once each and in order; what they enqueue is left waiting; the back buffer ends empty |
| Executor.RunAllSteps | include/minicomps/executor.h:41-46 | What that comes to, item by item: each finds the world as the one before it left it, and what they enqueue lines up in their order |
| Lifetimes.ExpiryIsPermanent | include/minicomps/lifetime.h:12-22 | A weak pointer that has expired stays expired whatever is done to any lifetime |
| Lifetimes.ResetExpiresItsOwn | include/minicomps/lifetime.h:18-20 | A reset expires a lifetime's pointers if and only if no copy shares its integer, and nobody else's |
| Lifetimes.DestroyExpiresItsOwn | include/minicomps/lifetime.h:12-24 | The end of a lifetime expires its pointers if and only if no copy shares its integer, and nobody else's |
| Lifetimes.CreateIsFresh | include/minicomps/lifetime.h:23 | A new lifetime owns an integer that no pointer refers to yet, and touches no other pointer |
| Lifetimes.CopyShares | include/minicomps/lifetime.h:12-24 | Copies share one integer, which the reset or the end of one alone does not expire; what the target of an assignment owned goes as if destroyed |
| Lifetimes.LifetimeTable.CreateWeakPtr | include/minicomps/lifetime.h:14-16 | A fresh pointer is live |
| Lifetimes.LifetimeTable.Reset | include/minicomps/lifetime.h:18-20 | Replaces the integer; whatever was expired stays so |
| Lifetimes.LifetimeTable.MakeCopy | include/minicomps/lifetime.h:12-24 | The copy owns the integer of its source, and nothing else changes |
| Lifetimes.LifetimeTable.Drop | include/minicomps/lifetime.h:12-24 | The object is gone; whatever was expired stays so |
| CallbackResults.RepeatedReplies | include/minicomps/callback.h:36-74 | Replies through one result: all reach the callback on the direct path, only the first on the queued path |
| CallbackResults.PathsAgreeOnReplies | include/minicomps/callback.h:36-74 | The two paths run the callback equally if and only if the handler replies at most once or the lifetime has expired |
| CallbackResults.SpentResultIsSilent | include/minicomps/callback.h:44-56 | A result whose callback and lifetime pointer were moved out never runs a callback again |
| CallbackResults.CallbackResult.Invoke | include/minicomps/callback.h:36-74 | Queues a response with the moved-out callback on the sender's executor, or calls directly unless the lifetime has expired |
| CallbackResults.CanceledIsSilent | include/minicomps/callback.h:76-78 | `canceled()` holds if and only if no replies through the result, however many, run the callback |
| CallbackResults.CanceledIsFinal | include/minicomps/callback.h:76-78 | Once canceled, no later reply runs the callback, whatever happens to any lifetime in between |
| CallbackResults.CallbackResult.Canceled | include/minicomps/callback.h:76-78 | Tells the handler whether any reply it could still make would run the callback |
| CallbackResults.AsyncQuery.Execute | include/minicomps/async_query.h:136-180 | Hands the handler a result at once on the shared executor; otherwise appends one request to the receiver's queue and nothing else |
| Protocol.ExecutorsRunInOrder | include/minicomps/executor.h:22-48 | On every run each executor has started the first of the requests, responses and other tasks it was given, in that order, and has the rest still |
| Protocol.UserCodeIsFree | include/minicomps/callback.h:36-74 | Results may be replied through or let go at any time and any number of times, and queries sent, work posted and lifetimes changed at any time |
| Protocol.ExecutorsGoOn | include/minicomps/executor.h:35-48 | In every reachable state each executor has exactly one step to take next |
| Protocol.QueuedPathIsConfined | include/minicomps/async_query.h:143-180 | On every run queued handlers run on the receiver's executor only, and queued callbacks on the sender's only, whoever replies from where |
| Protocol.BothPathsAreConfined | include/minicomps/async_query.h:136-180 | The same on both paths if components send from their own executor and direct replies are made on the shared one |
| Protocol.Conservation | include/minicomps/async_query.h:143-180 | In every reachable state each queued query is in exactly one place: one position of a queue or back buffer, unanswered with its handler, or settled |
| Protocol.SettledOnce | include/minicomps/callback.h:36-63 | A queued query is delivered, dropped or abandoned at most once in all |
| Protocol.HandlersRunOnce | include/minicomps/async_query.h:158-176 | A handler runs at most once for a query, and has run exactly when the request is waiting nowhere |
| Protocol.NoCallbackAfterExpiry | include/minicomps/callback.h:44-72 | On every run, from a state in which a query's weak pointer is expired (reset, dead from the start, or null) its callback is never run, on either path, whatever the delays |
| Protocol.NoCallbackAfterTheEnd | include/minicomps/callback.h:44-72 | On every run, from the end or the reset of the only lifetime that owns an integer on, no callback sent with a pointer to it is run, wherever its query is at the time |
| Ordering.SettledInSendOrder | include/minicomps/async_query.h:143-180 | For queries from one sending to one receiving executor whose own handlers reply at once, whatever else goes on and however late others reply, a query is settled only after all sent before it |
| Elision.CallbacksInSendOrder | include/minicomps/callback.h:50-59 | Those settled are the first k sent, in order; all of them once quiet; by running their callbacks where no lifetime expired |
| Elision.MeaningStepByStep | include/minicomps/async_query.h:158-176 | The reference meaning, step by step: the handler's states from call to call, and each sender the replies to its own calls in order |
| Elision.QueuedMeaning | include/minicomps/async_query.h:143-180 | The queued path run until quiet gives the handler the calls in send order and every sender the replies of the reference meaning |
| Direct.DirectMeaning | include/minicomps/async_query.h:136-142 | So does the direct path, among any other traffic, on every run on which the calls are made directly and each after the answer to the one before |
| Direct.ElisionPreservesMeaning | include/minicomps/async_query.h:136-180 | Any queued run and any direct run of the same calls give the same handler calls, and each sender the same results in the same order, whatever else goes on in either |
| Termination.EveryStartTakesOne | include/minicomps/executor.h:35-48 | On every run of the protocol, threads interleaved in any way, while nothing is sent through the queues and no result is used twice: each request or response started, and each unused result discarded, takes exactly one off 2 * requests + unused results + responses, and nothing else changes it |
| Termination.NothingLeft | include/minicomps/executor.h:35-48 | Nothing is left by that measure if and only if no request or response waits anywhere and no handler holds an unused result |
| Termination.RoundAnswers | include/minicomps/executor.h:35-48 | While nothing is sent through the queues, a round in which each executor takes in its queue and finishes it, overlapping in any way, leaves no request anywhere |
| Termination.TwoRoundsLeaveNothing | include/minicomps/executor.h:35-48 | Two such rounds leave nothing by that measure, if handlers reply before they return and use a result at most once |
| Draining.ExecuteDrains | include/minicomps/executor.h:35-48 | One `execute()` takes one off 2 * requests + responses for each item it runs, and leaves no request in its queue |
| Draining.EveryTaskTakesOne | include/minicomps/executor.h:35-48 | Over any sequence of `execute()` calls the items run and the measure left add up to the measure at the start |
| Draining.DrainsExactly | include/minicomps/callback.h:50-59 | A sequence of `execute()` calls empties all queues if and only if every executor with work has its turn, and after it every executor its requests are answered on |
| Draining.TwoRoundsDrain | include/minicomps/executor.h:35-48 | Two rounds over all executors, each in any order, empty all queues |
| Draining.OneRoundMayNotDrain | include/minicomps/callback.h:50-59 | One round does not, for a concrete pair of queues |
| Brokers.RefinesPlainMap | src/broker.cpp:8-78 | On every run the lists in place are those of a plain map, and no snapshot handed out ever changes |
| Brokers.ExpiresWithMutation | src/broker.cpp:8-57 | A snapshot expires if and only if its id is mutated; until then lookups of the id give that very snapshot |
| Brokers.LookupsAgree | src/broker.cpp:67-78 | Two lookups without a mutation between give the identical snapshot, even of an unknown id |
| Brokers.SurvivorsExact | src/broker.cpp:35-43 | Exactly the living others survive the erase, each as often as listed and in order |
| Brokers.DisassociateAllExact | src/broker.cpp:59-65 | Keeps the ids, leaves of every list exactly the living others, and replaces every snapshot |
| Brokers.Broker.AssociateWith | src/broker.cpp:8-22 | Puts a new snapshot with the component at the end in place |
| Brokers.Broker.DisassociateFrom | src/broker.cpp:24-46 | The erase loop leaves exactly the survivors; reports the unknown id on which the source aborts |
| Brokers.Broker.InvalidateId | src/broker.cpp:48-57 | Replaces the snapshot by an equal one, or does nothing for an unknown id |
| Brokers.Broker.DisassociateEverything | src/broker.cpp:59-65 | Visits every id once, in some order, and never reaches the abort |
| Brokers.Broker.LookUp | src/broker.cpp:67-78 | Gives the snapshot in place, after putting an empty one in place for an unknown id |
| References.LookUpIsResolve | include/minicomps/mono_ref.h:41-78 | From a coherent cache a lookup is the fresh resolution, with receiver, executor and flag, and leaves coherence exactly unless it takes the stale exit |
| References.ClearingStaysCoherent | include/minicomps/mono_ref.h:41-78 | The variant that clears its handler on refetch stays coherent unconditionally |
| References.LookUpInterfaceIsResolve | include/minicomps/interface_ref.h:30-63 | The same for the interface proxy, with its exact condition |
| References.LookUpAllIsResolve | include/minicomps/poly_ref.h:63-95 | A lookup of a coherent event reference is the fresh resolution and leaves it coherent |
| References.ResolveAllExact | include/minicomps/poly_ref.h:79-92 | One target per association of a living component with a handler, in order, with the right executor flag |
| Coherence.MonoLookupsAreFresh | include/minicomps/mono_ref.h:41-85 | After any run a lookup gives the fresh resolution if and only if the reference is not tainted by a stale exit |
| Coherence.NoStaleExitNoTaint | include/minicomps/mono_ref.h:52-61 | A run on which the reference never takes the stale exit never taints it |
| Coherence.SecondPublisherTaints | include/minicomps/mono_ref.h:55-56 | Any resolved reference is tainted by a second publisher and a lookup |
| Coherence.ResolvedRun | include/minicomps/mono_ref.h:41-78 | A concrete run to start that from |
| Coherence.InterfaceLookupsAreFresh | include/minicomps/interface_ref.h:30-69 | After any run a lookup gives the fresh proxy if and only if the link is not tainted |
| Coherence.NoStaleLinkNoTaint | include/minicomps/interface_ref.h:42-53 | A run on which the reference never takes a stale exit never taints it |
| Staleness.SecondPublisherTaintsLink | include/minicomps/interface_ref.h:45-46 | Any resolved interface reference is tainted by a second publisher and a lookup |
| Staleness.ResolvedLinkRun | include/minicomps/interface_ref.h:30-63 | A concrete run to start that from |
| Staleness.ExtraExitUnreached | include/minicomps/interface_ref.h:51-53 | On every run on which an id is published as an interface only, the proxy is kept exactly when the refetched list is not one living receiver; the exit without an interface is not taken |
| Staleness.LookupsHoldReceivers | include/minicomps/mono_ref.h:41-78 | After any run, a lookup that answers with a handler leaves a receiver that is alive if and only if not both the reference is tainted and its receiver gone |
| Staleness.HandlersBelong | include/minicomps/mono_ref.h:58-69 | On every run the handler and the receiver in a reference belong together: the one has been the other's for that message |
| Staleness.LinkLookupsHoldReceivers | include/minicomps/interface_ref.h:30-63 | After any run a lookup that answers with a proxy leaves its component held and alive exactly unless the link is tainted and holds another or none; none, where ids of interfaces are used for nothing else |
| Staleness.ReceiverLost | include/minicomps/mono_ref.h:58-61 | Any resolved reference can be led there: its receiver unpublishes, another component publishes and goes, and a lookup is made |
| Coherence.PolyLookupsAreFresh | include/minicomps/poly_ref.h:63-100 | After any run an event reference gives exactly the current resolution, unconditionally |
| Coherence.SubscribingMustBeAtomic | include/minicomps/component_base.h:237-246 | After a lookup between association and handler the reference is coherent if and only if that lookup found no target |
| Coherence.UndisturbedTables | include/minicomps/component_base.h:98-246 | While the snapshot of an id is in place, nothing that any component has published for it changes |
| Publishing.RunListed | include/minicomps/component_base.h:98-246 | On every run the broker lists for an id whoever has published or subscribed it and not unpublished since, each as often and in order |
| Publishing.MonoFinds | include/minicomps/mono_ref.h:41-78 | After any run an untainted reference finds a component if and only if that is the only one listed, lives and has given a handler; then the last handler it gave, for the executor it published it for or else its own, and with the flag to match |
| Publishing.PublishedAsyncIsFound | include/minicomps/component_base.h:118-128 | So an asynchronous query is found with the handler and the executor override it was last published with |
| Publishing.PublishedSyncIsFound | include/minicomps/component_base.h:98-107 | And a synchronous one with its handler, on the component's executor |
| Publishing.EventsFind | include/minicomps/poly_ref.h:63-95 | After any run an event reaches exactly the listed components that live and have given a handler, in order and once per association, by the handler given last |
| Publishing.SubscribersAreReached | include/minicomps/component_base.h:237-246 | Whoever is listed and lives is reached by the handler of its last subscription |
| Publishing.StaysListed | include/minicomps/component_base.h:237-246 | Whoever publishes or subscribes stays listed as long as it neither unpublishes nor goes, whoever else does |
| Publishing.InterfaceFinds | include/minicomps/interface_ref.h:30-63 | After any run an untainted link has a proxy if and only if one living component offers the interface, of what it last published, query by query |
| Publishing.ChangesAreNoticed | src/broker.cpp:8-57 | Whatever anybody has looked up of an id is expired by the next publication, subscription, filter, invalidation or removal of it |
| Publishing.FoundAreHeld | include/minicomps/mono_ref.h:58 | On every run a lookup of an untainted reference, and any lookup of an event, keeps whom it finds from going |
| Publishing.ReferencesAsMade | include/minicomps/mono_ref.h:37 | A reference keeps the message, kind and owner that it was made with |
| Components.Component.LookupHandler | include/minicomps/component_base.h:293-313 | The handler that the tables hold for the component, if any |
| Components.Component.LookupExecutorOverride | include/minicomps/component_base.h:323-331 | The override given at publishing, if any |
| Components.Component.PublishSyncQuery | include/minicomps/component_base.h:98-107 | Associates and installs the handler, leaving all else |
| Components.Component.PublishAsyncQuery | include/minicomps/component_base.h:118-128 | Associates, installs the handler and the override, leaving all else |
| Components.Component.SubscribeEvent | include/minicomps/component_base.h:237-246 | Associates and installs the event handler, leaving overrides alone |
| Components.Component.PublishInterface | include/minicomps/component_base.h:138-143 | Associates and installs the interface |
| Components.Component.PrependFilter | include/minicomps/component_base.h:199-220 | Replaces the handler and invalidates; reports the missing handler on which the source aborts |
| Components.MonoRef.Lookup | include/minicomps/mono_ref.h:41-78 | The lookup, field by field and exit by exit |
| Components.MonoRef.Reset | include/minicomps/mono_ref.h:80-85 | Clears all but the flag |
| Components.PolyRef.Lookup | include/minicomps/poly_ref.h:63-95 | The loop refills the targets with the fresh resolution |
| Components.InterfaceRef.Lookup | include/minicomps/interface_ref.h:30-63 | The lookup, exit by exit |
| Components.InterfaceRef.CopyInterface | include/minicomps/if_async_query.h:35-61 | Each copied query notes its executor and whether it is called directly, which an asynchronous one may be forbidden |
| Queries.QueriesReachTheirReceiver | include/minicomps/async_query.h:127-180 | After any run a query goes to the handler of the one living receiver, directly or into the queue of its effective executor, and aborts if there is none, if and only if the reference is not tainted or has no receiver |
| Queries.QueriesGoWherePublished | include/minicomps/async_query.h:127-180 | In terms of what was published: the handler given last gets a result at once if its executor is the owner's, else that executor gets a request to be answered to the owner's |
| Queries.InterfaceCallsReachTheirReceiver | include/minicomps/if_async_query.h:159-213 | After any run a query of an interface is called on the one living component, around its queue or lock where it may be and on its published executor otherwise, exactly unless the link is tainted and its proxy has the query |
| Queries.InterfaceCallsGoWherePublished | include/minicomps/if_async_query.h:159-213 | In terms of what was published: locked or not, at once or requested, and of which executor |
| Queries.SentAsAllowed | include/minicomps/async_query.h:136-142 | A query through an untainted reference is sent as its receiver allows if and only if its executor is another or direct calls are allowed |
| Queries.SentDirectlyAllTheSame | include/minicomps/async_query.h:136-142 | A concrete run on which a component that forbids direct calls is called directly |
| Staleness.ProxiesCallAsAllowed | include/minicomps/if_async_query.h:57-60 | On every run the queries of a proxy are called directly exactly on the owner's executor and, if asynchronous, with the component's leave |
| Queries.AsyncQuery.Execute | include/minicomps/async_query.h:127-180 | Lookup and path together: result, queue contents and untouched queues |
| Filters.InvokeRunsTheChain | include/minicomps/component_base.h:210-215 | Calling a handler evaluates its chain of filters inwards |
| Filters.ExpectedExact | include/minicomps/component_base.h:210-215 | Filters run from the latest inwards, each once, up to the first that does not proceed; the handler runs once and last if and only if there is none |
| Filters.ChainIsPrepended | include/minicomps/component_base.h:199-220 | On every run a message's chain is what was put before it, the latest outermost |
| Filters.InterfaceChainIsPrepended | include/minicomps/if_async_query.h:133-155 | The same for a query of an interface |
| Filters.HandedOutStays | include/minicomps/component_base.h:208-210 | Every handler pointer ever handed out stays reachable and unchanged |
| Filters.ChainsAtSendOrExecution | include/minicomps/async_query.h:158-176 | A queued query runs through the filters put before it until its send, one of an interface through those put before it until its execution |
| Filters.HandledBound | include/minicomps/if_async_query.h:147-151 | If no interface filter calls on more than n times the handler runs at most n to the number of filters times, and exactly so often if all call on n times |
| Filters.HandlerGetsWhatComesThrough | include/minicomps/if_async_query.h:147-151 | The handler runs with exactly the arguments that come through the filters, each filter applied to all that the one before it lets through, in that order |
| Filters.OneFilter | include/minicomps/if_async_query.h:147-151 | Under one filter the handler runs once for each of its calls, in order and with the arguments of that call |
| Filters.InterfaceGeneralizes | include/minicomps/if_async_query.h:147-151 | A filter of a published query is the interface filter that calls on once or not at all |
| Filters.FilteredComponent.PrependAsyncQueryFilter | include/minicomps/component_base.h:199-220 | Puts a filter that owns the previous handler in its place; reports the abort |
| Filters.FilteredComponent.PrependInterfaceFilter | include/minicomps/if_async_query.h:133-155 | Replaces the interface's handler in place |
| Filters.FilteredComponent.CallHandler | include/minicomps/component_base.h:210-215 | The nested calls run what the chain is to run |
| Filters.FilteredComponent.CallInterface | include/minicomps/if_async_query.h:149-151 | The same where filters call on any number of times |
| Filters.FilteredComponent.ExecuteOne | include/minicomps/if_async_query.h:190-205 | Runs the first request by the pointer it carries or through the query as it is now |
| Events.EventsExactlyOnce | include/minicomps/event.h:19-42 | On every run, sends within sends included, what a component got of another's events, what is queued and what is on its way is exactly what was sent |
| Events.EventsInOrder | include/minicomps/event.h:22-41 | It comes in the order of the sends if and only if nothing was sent to it from within a send that still had to come to it |
| Events.SendWithinSend | include/minicomps/event.h:23-29 | A concrete run on which a receiver gets the inner send's event before the outer one's |
| Events.EventsAtHome | include/minicomps/event.h:23-39 | On every run each event runs on its receiver's default executor |
| Events.FanOutExact | include/minicomps/event.h:22-41 | A send runs the handlers on its own executor in list order and queues the others in that order on their executors |
| Events.FanOutIsRun | include/minicomps/event.h:22-41 | A send that nothing interrupts is a run of the sender's own steps |
| Events.SendReachesEveryAssociation | include/minicomps/event.h:22-41 | On every run a send's targets are one per association of a living component with a handler |
| Events.EventSender.Send | include/minicomps/event.h:19-42 | The loop is that fan-out over a fresh lookup, where no handler makes the sender send again |
| SyncCalls.MutualExclusion | include/minicomps/sync_query.h:62-76 | In every reachable state one thread at most is inside locked calls of a component, and owns its lock as often as it has such calls open |
| SyncCalls.ReportsOutsideTheLock | include/minicomps/sync_query.h:70-75 | Requests are reported before the lock is taken, responses after it is released |
| SyncCalls.IdleOwnsNothing | include/minicomps/sync_query.h:74-75 | A thread in no call owns no lock |
| SyncCalls.LogsBracketed | include/minicomps/sync_query.h:41-76 | Every thread's listener log is well bracketed, with sender and receiver swapped, and leaves open exactly its reported open calls |
| SyncCalls.ReportsExactly | include/minicomps/sync_query.h:61-76 | Announcing and answering a listened call each write one event with its kind, sides and message; no other step writes any |
| SyncCalls.LogsAreReports | include/minicomps/sync_query.h:41-76 | On every run a thread's log is what the calls it made have it report, and every call is locked exactly if the executors differ |
| SyncCalls.NoDeadlock | include/minicomps/if_sync_query.h:87-104 | If each locked call goes above everything its thread has locked, or into something it has locked, each thread in a call can move or waits through finitely many owners for one that can |
| SyncCalls.ClimbingMayDeadlock | include/minicomps/sync_query.h:70-75 | Calls that only climb from component to component, with re-entry, can deadlock: a concrete run |
| SyncQueries.Thread.Lock | include/minicomps/component.h:89 | Takes the recursive lock once more |
| SyncQueries.Thread.Unlock | include/minicomps/component.h:89 | Gives it back once |
| SyncQueries.Thread.Invoke | include/minicomps/sync_query.h:41-76 | Nested calls report request, inner calls and response in this order, two events for each listened one, the outermost first and last, and leave every lock as often taken as before |
| SyncQueries.CallsAreRuns | include/minicomps/if_volatile_sync_query.h:95-139 | From any reachable state an uncontended call can be run by its thread alone, to the same effect as the call operator |
| Storage.InlineBoundExact | include/minicomps/fixed_any.h:44-55 | The bound for inline storage holds if and only if the aligned object fits at every address |
| Storage.ChainStaysAligned | include/minicomps/fixed_any.h:22-38 | Moving by offset any number of times keeps a payload aligned and inside |
| Storage.RebasingExact | include/minicomps/fixed_any.h:111-114 | That holds between all storages if and only if the alignment divides theirs |
| Storage.PowersDivide | include/minicomps/fixed_any.h:122 | Powers of two divide the maximal one exactly up to it |
| Cells.AddStores | include/minicomps/fixed_any.h:40-87 | Filling an empty cell adds one living payload of that value, inline if and only if there is room for its type wherever the cell may be |
| Cells.PlacedWhereItFits | include/minicomps/fixed_any.h:40-87 | The one new object lies in the cell, at the first aligned place, if and only if its type fits at every address; all others but the one replaced stay |
| Cells.AskewAborts | include/minicomps/fixed_any.h:116-120 | What must not be destroyed for its alignment is exactly what lies askew |
| Cells.MoveStores | include/minicomps/fixed_any.h:22-38 | Moving between cells ends the old payload, keeps every value and passes both alignment checks |
| Cells.DropStores | include/minicomps/fixed_any.h:102-109 | Destroying a cell ends exactly its payload |
| Cells.PayloadsAccounted | include/minicomps/executor.h:22-48 | On every sequence of enqueues, growths, swaps, runs and clears each payload is alive in exactly one cell or was destroyed exactly once, constructed less destroyed is the number of cells, and values are handed out in order |
| Cells.DrainedLeavesNothing | include/minicomps/executor.h:35-48 | Idle and empty, every payload has been handed out and destroyed |
| FixedAnys.FixedAny.Destroy | include/minicomps/fixed_any.h:102-109 | Destroys what the cell holds, if anything |
| FixedAnys.FixedAny.AssignValue | include/minicomps/fixed_any.h:40-87 | Destroys the old value and stores the new one, inline if and only if its type fits at every address |
| FixedAnys.FixedAny.AssignMove | include/minicomps/fixed_any.h:22-38 | Destroys the old value, moves the other's in at its offset, value and all, and ends the other's |
| FixedAnys.TaskVector.Grow | include/minicomps/executor.h:29 | Growing moves every cell and keeps every value, constructing each payload once more |
| FixedAnys.TaskVector.EmplaceBack | include/minicomps/executor.h:29-31 | Appends one value, after growing if need be, and keeps all others |
| FixedAnys.TaskVector.Clear | include/minicomps/executor.h:47 | Destroys exactly the payloads of this buffer |

## Left out

- Coroutines and promises: the minicoros library is not part of this model, so queries have callbacks only.
- Moving lifetimes: a moved-from lifetime owns nothing until it is reset; the model copies, resets and destroys them.
- Template and macro plumbing: message ids are an abstract type with equality.
- CallbackResults.AsyncQuery.Execute: a queued request does not carry the handler pointer looked up at the send, so which handler it runs is not said there; `Filters` carries it.
- Queries.AsyncQuery.Execute: likewise.
- Components.InterfaceRef.CopyInterface: the aborts for a query the interface does not implement and for a missing sender are not modelled.
- Filters.ChainsAtSendOrExecution: a filter's arguments are plain values, whereas the code moves them into the filter and again into the handler.
- FixedAnys.TaskVector.Grow: each new cell takes the place of the old one as it is filled; the new block of memory as a whole is not modelled, nor when the vector decides to grow.
- Events.EventsInOrder: events move through queues that hold nothing else, other items in between would change no order; and the targets of a send are given from outside, which `Events.SendReachesEveryAssociation` ties to the broker.
- SyncQueries.Thread.Invoke: the lookup before the call, and the fallback handler or the abort of a query without a receiver, are not modelled; other threads' locks must not be in the way, which `SyncCalls` treats.
- Listener reports of asynchronous queries and events: they are made after enqueuing, and no order across threads is promised.
- Mutual exclusion between an executor's items and locked calls: `execute()` takes no component lock.
- `describe_dependencies`, post-publish checks of unimplemented interface queries, and the counters of failed try-locks.
- The sample application, test scaffolding and performance tests.
