# CmsTemplate resources, message bodies and destination names

This project models two parts of ActiveMQ-CPP and proves what they keep over every use.

**The resource stack of `cmsutil`.**  A `CmsTemplate` opens its connection on demand, keeps one
session pool per acknowledge mode, caches producers and consumers per session under string keys,
remembers resolved destinations per session, and hands every provider object to one lifecycle
manager.  Any provider failure runs nested exception handlers that each call `destroy()`.

- `CppHeap` is the C++ heap: a pointer is an index into a growing list of cells, and a cell counts
  its deletions.  Provider calls are numbered, and an oracle decides which of them throw.
- `TemplateState` says what each step does to the state as a value; a failing step ends in
  `Teardown`, the closed form of `destroy()`.  A callback is the script of the template calls it
  makes, nested to any depth.
- `TemplateInvariant`, `TemplateGrowth`, `TemplateSteps` and `TemplateOperations` prove the
  ownership invariant step by step and call by call; `TemplateOwners`, `TemplateRuns`,
  `TemplateSessions`, `TemplateAnswers` and `TemplateProgress` draw the theorems about every
  sequence of calls.
- The state records every use of a provider object and of a message.  `TemplateReference` says,
  with no connection object, pool, cache or memo, what a call amounts to; `TemplateRecord`,
  `TemplateRefinement` and `TemplateUses` prove that the record of every call is what the
  reference says.
- `LifecycleManager`, `DestinationResolver`, `Pools`, `TemplateDestruction` and `CmsTemplate` are
  the code itself, with its fields, loops and handlers.  Reading, writing or deleting a heap cell
  requires that it is alive, so verifying these methods shows that no dangling pointer is followed
  and nothing is deleted twice; `CmsTemplate.Template.RunAll` ties them to the theorems.
- `PoolClients` lets any number of clients share one pool; its mutex makes each take and return
  atomic, and every run of the pool's code is shown to be an interleaving of such steps.

**Message bodies and destination names of `commands`.**  `BytesBody` and `BytesMessage` (with
`FixedWidth`) are the write-only/read-only byte message, `MapMessage` the lazily decoded map
message, `DestinationNames` and `CompositeDestinations` the name codec and the cached
decomposition of composite names.

Assumptions that the code makes of its users:

- The configured acknowledge mode is at most SESSION_TRANSACTED: there are four pools, but the
  enumeration has a fifth mode.
- Callbacks do not close the pooled session; `returnSession` does not look for double returns
  (`PoolClients.ReturnExact`, `PoolClients.DoubleReturnShares`).
- A callback lets the failure of a nested call through
  (`TemplateRuns.NestedFailureDeletesHeldSessions` shows why).
- The destination resolver is the built-in one and is not replaced.
- Providers and callbacks fail with CMSException.
- A destination object that a caller passes in stays alive, and was not obtained from the template.
- Compression is off, and body sizes fit an `int`.
- A bytes message does not become the target of `copyDataStructure` after its construction.

Where code and documentation differ, the model follows the code:

- `setDefaultDestinationName` and `setPubSubDomain` are documented to forget the default
  destination; they do so only when the value changes (CmsTemplate.h:315-354).
- `writeBytes(value, offset, length)` is documented to write a portion of the array; it throws for
  every positive offset with a positive length (`BytesBody.WriteRangeExact`).
- `clone` is a const operation, but in mid-write it drops the source's output stream, so later
  writes replace the earlier ones (`BytesBody.CloneInMidWrite`).
- `beforeMarshal` clears a map message that was never decoded
  (`MapMessage.BeforeMarshalKeepsExact`), and makes a sent message with an empty map writable again
  (`MapMessage.ReadOnlyKeptExact`).

## Model

| member | source | states |
|---|---|---|
| `CacheKeys.ProducerKeyExact` | activemq-cpp/src/main/activemq/cmsutil/PooledSession.cpp:163-179 | Two destinations share a producer key if and only if they agree on domain and name; so a temporary queue shares the key of a queue of the same name. |
| `CacheKeys.ConsumerKeyExact` | activemq-cpp/src/main/activemq/cmsutil/PooledSession.cpp:122-135 | Exactly when two consumer requests share a key: same flag, same domain, and the same text name + `]s=` + selector. |
| `CacheKeys.ConsumerKeyInjective` | activemq-cpp/src/main/activemq/cmsutil/PooledSession.cpp:130-135 | For names without `]s=` and arbitrary selectors, consumer keys separate every domain, name, selector and noLocal flag. |
| `CacheKeys.MarkerCollides` | activemq-cpp/src/main/activemq/cmsutil/PooledSession.cpp:130-135 | The condition is exact: every queue or topic, temporary or not, whose name has `]s=` shares each of its consumer keys with a destination of another name under another selector. |
| `LifecycleManager.DestroyLogOnce` | activemq-cpp/src/main/activemq/cmsutil/ResourceLifecycleManager.cpp:70-147 | destroy() makes all closes before any delete, closes exactly the connections, and deletes every managed resource exactly once. |
| `LifecycleManager.ChildrenFirst` | activemq-cpp/src/main/activemq/cmsutil/ResourceLifecycleManager.cpp:87-140 | Deletions follow the phases producers, consumers, destinations, sessions, connections. |
| `TemplateDestruction.ParentsLast` | activemq-cpp/src/main/activemq/cmsutil/ResourceLifecycleManager.cpp:87-140 | No parent is deleted before its children: each producer, consumer and destination is deleted before the provider session it was made in, and that session before its connection. |
| `LifecycleManager.ResourceLifecycleManager.DeleteEach` | activemq-cpp/src/main/activemq/cmsutil/ResourceLifecycleManager.cpp:87-98 | One deletion loop: every listed resource is deleted once, in insertion order, whatever the deletes throw. |
| `LifecycleManager.ResourceLifecycleManager.Destroy` | activemq-cpp/src/main/activemq/cmsutil/ResourceLifecycleManager.cpp:60-147 | For every pattern of throwing closes and deletes, destroy() performs the whole log, deletes exactly the managed resources and ends empty; on empty lists it does nothing. |
| `DestinationResolver.DynamicDestinationResolver.GetDestination` | activemq-cpp/src/main/activemq/cmsutil/DynamicDestinationResolver.cpp:28-71 | getTopic and getQueue: a known name costs no provider call; a new one is created, registered with the manager once and remembered. |
| `DestinationResolver.DynamicDestinationResolver.ResolveDestinationName` | activemq-cpp/src/main/activemq/cmsutil/DynamicDestinationResolver.cpp:96-117 | Refines create-on-demand: an empty name fails and changes nothing, a session gets its resolver on first use. |
| `DestinationResolver.DynamicDestinationResolver.Destroy` | activemq-cpp/src/main/activemq/cmsutil/DynamicDestinationResolver.cpp:84-93 | Deletes every session resolver exactly once and forgets all sessions. |
| `Pools.TakeSession` | activemq-cpp/src/main/activemq/cmsutil/SessionPool.cpp:55-91 | The head of the available list, or a new session of the pool's mode that is registered with the manager and listed once; a failed creation changes nothing. |
| `Pools.CloseSession` | activemq-cpp/src/main/activemq/cmsutil/PooledSession.cpp:68-73 | Closing a pooled session appends it to the available list of the pool that made it. |
| `Pools.CreateCached` | activemq-cpp/src/main/activemq/cmsutil/PooledSession.cpp:86-160 | A cached client costs no provider call; a new one is created, registered with the manager, wrapped and cached under its key. |
| `Pools.DeleteSession` | activemq-cpp/src/main/activemq/cmsutil/PooledSession.cpp:48-65 | The destructor deletes every cached wrapper once and nothing else; the provider's objects are left to the manager. |
| `Pools.DeletePool` | activemq-cpp/src/main/activemq/cmsutil/SessionPool.cpp:37-52 | The destructor deletes exactly the pool's sessions and their wrappers, each once. |
| `PoolClients.EveryInterleavingPartitions` | activemq-cpp/src/main/activemq/cmsutil/SessionPool.cpp:55-100 | In every interleaving of any number of clients, each session is available or held by exactly one client, and no list has duplicates. |
| `PoolClients.SessionsAreHighWaterMark` | activemq-cpp/src/main/activemq/cmsutil/SessionPool.cpp:55-88 | The pool creates exactly as many sessions as were ever out at the same time. |
| `PoolClients.PoolTheorem` | activemq-cpp/src/main/activemq/cmsutil/SessionPool.cpp:55-100 | Both facts for a pool that starts empty. |
| `PoolClients.CodeIsInterleaving` | activemq-cpp/src/main/activemq/cmsutil/SessionPool.cpp:55-100 | Every run of the pool's take and close code among its clients, mixed with anything else that leaves the pool in place, is an interleaving of the atomic steps. |
| `PoolClients.PoolCodeTheorem` | activemq-cpp/src/main/activemq/cmsutil/SessionPool.cpp:55-100 | So after any such run from a new pool the sessions are partitioned, and as many were created as were ever out at the same time. |
| `PoolClients.ReturnExact` | activemq-cpp/src/main/activemq/cmsutil/SessionPool.cpp:94-100 | A return keeps the partition if and only if the client holds the session: the pool itself does not check. |
| `PoolClients.DoubleReturnShares` | activemq-cpp/src/main/activemq/cmsutil/SessionPool.cpp:94-100 | What goes wrong: after a session was returned twice, the two clients who get to the end of the available list hold it together. |
| `TemplateOperations.TeardownAgain` | activemq-cpp/src/main/activemq/cmsutil/CmsTemplate.cpp:192-213 | After one destroy(), every further one is a no-op, down to the heap and the provider calls. |
| `TemplateOperations.ConnectOutcome` | activemq-cpp/src/main/activemq/cmsutil/CmsTemplate.cpp:249-271 | getConnection() either keeps the open connection, opens one with its four pools, or tears everything down. |
| `TemplateOperations.TakeOutcome` | activemq-cpp/src/main/activemq/cmsutil/CmsTemplate.cpp:274-286 | takeSession() hands out a session that no callback holds, of the mode configured at that moment, or tears everything down. |
| `TemplateOperations.ResolveOutcome` | activemq-cpp/src/main/activemq/cmsutil/DynamicDestinationResolver.cpp:96-117 | A resolved destination is managed, belongs to the session, and has the asked domain and name. |
| `TemplateOperations.MakeProducerOutcome` | activemq-cpp/src/main/activemq/cmsutil/CmsTemplate.cpp:305-333 | createProducer() answers with a live wrapper cached under the key of the destination that the call means, or tears everything down. |
| `TemplateOperations.MakeConsumerOutcome` | activemq-cpp/src/main/activemq/cmsutil/CmsTemplate.cpp:336-360 | The same for createConsumer() with its selector and noLocal flag. |
| `TemplateOperations.ExecOutcome` | activemq-cpp/src/main/activemq/cmsutil/CmsTemplate.cpp:419-443 | Every call, with every callback (nested calls included) and every pattern of provider failures, keeps the ownership invariant and the held sessions, or leaves a torn-down template. |
| `TemplateRuns.EveryObjectOwnedOrDeletedOnce` | activemq-cpp/src/main/activemq/cmsutil/CmsTemplate.cpp:147-286 | Over every sequence of calls, every object ever created, except a message handed to the caller, is alive and in exactly one of the places whose contents get deleted (manager lists, pool array, session lists, caches, resolver map), or deleted exactly once and in none. |
| `TemplateOwners.OneSlot` | activemq-cpp/src/main/activemq/cmsutil/PooledSession.cpp:48-65 | Also inside callbacks no object is in two such places: no two cache entries share a wrapper, no two pools a session, no two sessions a resolver. |
| `TemplateRuns.DestructorLeavesNothing` | activemq-cpp/src/main/activemq/cmsutil/CmsTemplate.cpp:116-121 | Destroying the template at the end of any run leaves every object deleted exactly once, but for the messages handed to the caller. |
| `TemplateRuns.NothingDangles` | activemq-cpp/src/main/activemq/cmsutil/CmsTemplate.cpp:192-286 | Between calls the connection field, pools, their sessions and available lists, caches, resolver maps and a resolved default destination point only to live objects. |
| `TemplateRuns.FailureLeavesFresh` | activemq-cpp/src/main/activemq/cmsutil/CmsTemplate.cpp:39-64 | After a failed call the template equals a newly constructed one with its settings (a default destination object is forgotten), nothing it owned is alive, and the outer handlers' destroy() calls change nothing. |
| `TemplateRuns.SettingsKept` | activemq-cpp/src/main/activemq/cmsutil/CmsTemplate.cpp:534-561 | A send or receive leaves the settings alone, failed or not. |
| `TemplateRuns.AtMostOneConnection` | activemq-cpp/src/main/activemq/cmsutil/CmsTemplate.cpp:249-271 | At any time at most one connection is alive, and it is the one in use. |
| `TemplateRuns.ReconnectsOnce` | activemq-cpp/src/main/activemq/cmsutil/CmsTemplate.cpp:254-265 | A call on a template without a connection creates at most one, and exactly one, left open, if it returns normally. |
| `TemplateRuns.OneConnectionPerFailure` | activemq-cpp/src/main/activemq/cmsutil/CmsTemplate.cpp:249-271 | Over every sequence of calls, connections opened exceed failures by at most one. |
| `TemplateRuns.NestedFailureDeletesHeldSessions` | activemq-cpp/src/main/activemq/cmsutil/CmsTemplate.cpp:419-443 | After a nested call fails, every session that an enclosing call holds has been deleted; so a callback that swallowed the failure would return a dangling session. |
| `TemplateSessions.SessionReturnsHome` | activemq-cpp/src/main/activemq/cmsutil/CmsTemplate.cpp:274-302 | A callback's session has the mode configured when taken, down to the provider's session, and returns to the pool it came from even if the callback changes the mode. |
| `TemplateSessions.NestingBoundsSessions` | activemq-cpp/src/main/activemq/cmsutil/SessionPool.cpp:55-88 | If callbacks nest at most n deep, no pool ever has more than n sessions; without nesting, one per mode and connection. |
| `TemplateAnswers.OneClientPerKey` | activemq-cpp/src/main/activemq/cmsutil/PooledSession.cpp:96-114 | A session has at most one producer, and at most one consumer, per cache key. |
| `TemplateAnswers.OneDestinationPerName` | activemq-cpp/src/main/activemq/cmsutil/DynamicDestinationResolver.cpp:28-71 | A session has at most one destination per domain and name. |
| `TemplateAnswers.ResolvesToSame` | activemq-cpp/src/main/activemq/cmsutil/DynamicDestinationResolver.cpp:96-117 | Resolving again after any calls that returned normally yields the same object with no provider call. |
| `TemplateAnswers.CachesSame` | activemq-cpp/src/main/activemq/cmsutil/PooledSession.cpp:86-160 | Asking again for a client after any calls that returned normally yields the same wrapper with no provider call. |
| `TemplateAnswers.ConsumerIsTheOneAskedFor` | activemq-cpp/src/main/activemq/cmsutil/CmsTemplate.cpp:336-360 | With names without `]s=`, a receive, at any depth of nesting, uses a live wrapper of a live provider consumer created in its own session for exactly its domain and name, selector and noLocal flag. |
| `TemplateAnswers.ProducerIsTheOneAskedFor` | activemq-cpp/src/main/activemq/cmsutil/CmsTemplate.cpp:305-333 | The same for producers, with no condition on names. |
| `TemplateRefinement.CallFollows` | activemq-cpp/src/main/activemq/cmsutil/CmsTemplate.cpp:419-644 | Every call, whatever calls enclose it and whichever provider calls fail, uses the provider as a reference without connection, pools, caches or memos says: which connection starts, callbacks, setters, messages made, sent and dropped, and receives, in which order and acknowledge mode, on which destination, selector and noLocal flag, at every depth of callbacks; all of it if the call returns normally, a beginning of it otherwise.  Consumers are known by cache key, and with names without `]s=` by their exact arguments.  If no provider call fails, the call returns normally if and only if the reference completes it. |
| `TemplateRefinement.TemplateRefinesReference` | activemq-cpp/src/main/activemq/cmsutil/CmsTemplate.cpp:419-743 | The same for every call after any sequence of calls on a new template, failed ones among them. |
| `TemplateRefinement.FaultlessRun` | activemq-cpp/src/main/activemq/cmsutil/CmsTemplate.cpp:419-743 | If no provider call fails, the record of a whole run is the reference's, and as many calls fail. |
| `TemplateUses.SendsOnce` | activemq-cpp/src/main/activemq/cmsutil/CmsTemplate.cpp:564-595 | A send that returns normally made one message in its session, sent it exactly once on a live producer of that session for the meant destination, and then dropped it; a failed send sent nothing or threw while sending. |
| `TemplateUses.ReceivesOnce` | activemq-cpp/src/main/activemq/cmsutil/CmsTemplate.cpp:598-652 | A receive that returns normally was one call on a live consumer of its session for the meant destination, its selector and noLocal flag, and handed one live message to the caller. |
| `TemplateUses.SessionAfterSetMode` | activemq-cpp/src/main/activemq/cmsutil/CmsAccessor.h:98-100 | The next session taken has the acknowledge mode that was set. |
| `TemplateAnswers.DefaultMatchesSettings` | activemq-cpp/src/main/activemq/cmsutil/CmsTemplate.cpp:224-246 | A default destination that the template resolved always has the current default name and domain, and is alive. |
| `TemplateProgress.CallSucceeds` | activemq-cpp/src/main/activemq/cmsutil/CmsTemplate.cpp:419-443 | When no provider call fails, every call on a template with a factory returns normally, however deeply its callbacks nest, unless a callback throws, names an empty destination or unsets the factory; calls without a destination need a default name, or a default object that nothing forgets. |
| `TemplateProgress.NoFailureOneConnection` | activemq-cpp/src/main/activemq/cmsutil/CmsTemplate.cpp:249-271 | A sequence of such calls has no failure and so opens at most one connection in all. |
| `CmsTemplate.Template.constructor` | activemq-cpp/src/main/activemq/cmsutil/CmsTemplate.cpp:77-144 | A new template equals the fresh state. |
| `CmsTemplate.Template.DestroySessionPools` | activemq-cpp/src/main/activemq/cmsutil/CmsTemplate.cpp:161-172 | Deletes exactly the open pools with their sessions and wrappers, each once, and clears the array. |
| `CmsTemplate.Template.CreateSessionPools` | activemq-cpp/src/main/activemq/cmsutil/CmsTemplate.cpp:147-158 | One pool per acknowledge mode on the connection. |
| `CmsTemplate.Template.Destroy` | activemq-cpp/src/main/activemq/cmsutil/CmsTemplate.cpp:192-213 | destroy(), in any state that the code can fail in, equals the closed-form teardown: every owned object deleted once, every field reset. |
| `CmsTemplate.Template.Init` | activemq-cpp/src/main/activemq/cmsutil/CmsTemplate.cpp:175-189 | init() only marks the template; the resolver it initialises knew nothing. |
| `CmsTemplate.Template.CreateConnection` | activemq-cpp/src/main/activemq/cmsutil/CmsAccessor.cpp:51-66 | No factory fails without a provider call; otherwise the connection is created and registered once. |
| `CmsTemplate.Template.GetConnection` | activemq-cpp/src/main/activemq/cmsutil/CmsTemplate.cpp:249-271 | Refines the connect step, with the handler's destroy(). |
| `CmsTemplate.Template.TakeSession` | activemq-cpp/src/main/activemq/cmsutil/CmsTemplate.cpp:274-286 | Refines the take step; the second handler finds nothing to do. |
| `CmsTemplate.Template.ReturnSession` | activemq-cpp/src/main/activemq/cmsutil/CmsTemplate.cpp:289-302 | Refines the return step; follows only live pointers. |
| `CmsTemplate.Template.ResolveDefaultDestination` | activemq-cpp/src/main/activemq/cmsutil/CmsTemplate.cpp:224-246 | Refines resolving the default: kept object first, then the name, then failure. |
| `CmsTemplate.Template.CreateProducer` | activemq-cpp/src/main/activemq/cmsutil/CmsTemplate.cpp:305-333 | Refines creating a producer, including both setter calls and their handlers. |
| `CmsTemplate.Template.CreateConsumer` | activemq-cpp/src/main/activemq/cmsutil/CmsTemplate.cpp:336-360 | Refines creating a consumer. |
| `CmsTemplate.Template.SendMessage` | activemq-cpp/src/main/activemq/cmsutil/CmsTemplate.cpp:564-596 | The message is deleted exactly once whether or not the send throws; failures pass through. |
| `CmsTemplate.Template.ReceiveMessage` | activemq-cpp/src/main/activemq/cmsutil/CmsTemplate.cpp:599-623 | Refines receiving; a received message belongs to the caller. |
| `CmsTemplate.Template.PerformWithProducer` | activemq-cpp/src/main/activemq/cmsutil/CmsTemplate.cpp:500-521 | The executor's handler tears down, its producer is still alive after the callback and is not deleted. |
| `CmsTemplate.Template.Execute` | activemq-cpp/src/main/activemq/cmsutil/CmsTemplate.cpp:419-443 | execute() refines the operation for every callback; however many handlers run, the result is one teardown. |
| `CmsTemplate.Template.SetDefaultDestinationName` | activemq-cpp/src/main/activemq/cmsutil/CmsTemplate.h:324-329 | A changed name forgets the default destination; the same name keeps it. |
| `CmsTemplate.Template.SetPubSubDomain` | activemq-cpp/src/main/activemq/cmsutil/CmsTemplate.h:349-354 | A changed domain forgets the default destination; the same domain keeps it. |
| `CmsTemplate.Template.RunAll` | activemq-cpp/src/main/activemq/cmsutil/CmsTemplate.cpp:419-743 | Every sequence of calls on the class computes the state that the step functions define, so the theorems above hold of it; no dangling pointer is followed on the way. |
| `FixedWidth.ValueRoundTrip` | activemq-cpp/src/main/decaf/io/DataOutputStream.cpp:91-217 | Each boolean, byte, short, unsigned short, int and long in range decodes to itself, at widths 1, 1, 2, 2, 4 and 8. |
| `FixedWidth.BytesOfEachKind` | activemq-cpp/src/main/decaf/io/DataOutputStream.cpp:91-218 | The bytes of each type in numbers: 1, 1, 2, 2, 4 and 8 of them, most significant first. |
| `FixedWidth.RangeOfEachKind` | activemq-cpp/src/main/cms/BytesMessage.h:129-410 | The values of each type in numbers. |
| `FixedWidth.BooleanOfByte` | activemq-cpp/src/main/decaf/io/DataInputStream.cpp:46-55 | Any byte but zero reads as true. |
| `FixedWidth.ListRoundTrip` | activemq-cpp/src/main/decaf/io/DataInputStream.cpp:46-188 | A list of values decodes to the same list, leaving whatever follows. |
| `BytesBody.RunSound` | activemq-cpp/src/main/activemq/commands/ActiveMQBytesMessage.cpp:182-211 | Every sequence of operations keeps: an open reader means read-only mode, read-only mode means nothing written is unstored. |
| `BytesBody.ContentStaysUnderReader` | activemq-cpp/src/main/activemq/commands/ActiveMQBytesMessage.cpp:588-680 | The content never changes while a reader is open. |
| `BytesBody.ReadOnlyUntilCleared` | activemq-cpp/src/main/activemq/commands/ActiveMQBytesMessage.cpp:656-658 | A read-only message keeps its content and refuses every write until clearBody. |
| `BytesBody.WriteOnlyUntilReset` | activemq-cpp/src/main/activemq/commands/ActiveMQBytesMessage.cpp:627-653 | Until it is reset or sent, a writable message refuses every read and getBodyLength. |
| `BytesBody.LastSegmentSurvives` | activemq-cpp/src/main/activemq/commands/ActiveMQBytesMessage.cpp:588-624 | After any writes and clones, what becomes readable is the last segment between clones in which anything was written. |
| `BytesBody.WritesAreTheBody` | activemq-cpp/src/main/activemq/commands/ActiveMQBytesMessage.cpp:172-211 | Without a clone, reset or onSend makes body and length exactly the concatenation of the writes. |
| `BytesBody.WritesSinceCleared` | activemq-cpp/src/main/activemq/commands/ActiveMQBytesMessage.cpp:182-193 | What came before a clearBody leaves no trace, so the theorems about new messages hold since the last clearBody. |
| `BytesBody.CloneInMidWrite` | activemq-cpp/src/main/activemq/commands/ActiveMQBytesMessage.cpp:110-129 | With a clone in mid-write, the body is all that was written if and only if nothing was written before it or nothing after it. |
| `BytesBody.CloneReadsAsSource` | activemq-cpp/src/main/activemq/commands/ActiveMQBytesMessage.cpp:110-129 | The clone of any message, once reset or sent, reads as its source would if it were reset now, with that body length; it can be written, and then reads as what was written. |
| `BytesBody.CloneHasTheWrites` | activemq-cpp/src/main/activemq/commands/ActiveMQBytesMessage.cpp:110-129 | The clone of a new message has all that was written to it, or, after earlier clones, the last segment. |
| `BytesBody.WriteRangeExact` | activemq-cpp/src/main/activemq/commands/ActiveMQBytesMessage.cpp:323-333 | writeBytes(value, offset, length) appends the asked-for portion if and only if the offset is zero or the portion is empty; otherwise it throws. |
| `BytesBody.ChunksAreThePrefix` | activemq-cpp/src/main/activemq/commands/ActiveMQBytesMessage.cpp:288-320 | The chunks of any sequence of readBytes calls on a read-only message, its reader open or not, join to the next bytes of the body. |
| `BytesBody.ChunkShape` | activemq-cpp/src/main/activemq/commands/ActiveMQBytesMessage.cpp:297-311 | Each result counts its bytes, -1 standing for none when some were asked for. |
| `BytesBody.ShortOnlyAtTheEnd` | activemq-cpp/src/main/activemq/commands/ActiveMQBytesMessage.cpp:297-311 | A short chunk completes the body, and every later positive read answers -1. |
| `BytesBody.ChunksOfTheWrites` | activemq-cpp/src/main/activemq/commands/ActiveMQBytesMessage.cpp:182-320 | Writes, then reset or onSend, then readBytes calls of any lengths: the chunks join to the first bytes of all that was written; a short chunk completes the body, and every later positive read answers -1. |
| `BytesBody.ReadValueExact` | activemq-cpp/src/main/activemq/commands/ActiveMQBytesMessage.cpp:214-529 | A typed read takes exactly its bytes, or finds the end of the body and uses up what is left. |
| `BytesBody.ValuesThroughMessage` | activemq-cpp/src/main/activemq/commands/ActiveMQBytesMessage.cpp:214-529 | Values written into a new message and read back after reset or onSend are the same values, and every read after them finds the end of the body. |
| `BytesMessage.ActiveMQBytesMessage.StoreContent` | activemq-cpp/src/main/activemq/commands/ActiveMQBytesMessage.cpp:588-624 | Stores and drops the output stream if anything was written; the raw pointer stays in step with the stream. |
| `BytesMessage.ActiveMQBytesMessage.Reset` | activemq-cpp/src/main/activemq/commands/ActiveMQBytesMessage.cpp:200-211 | Stores, closes both streams, and makes the body read-only. |
| `BytesMessage.ActiveMQBytesMessage.OnSend` | activemq-cpp/src/main/activemq/commands/ActiveMQBytesMessage.cpp:194-197 | Stores, and makes body and properties read-only. |
| `BytesMessage.ActiveMQBytesMessage.ClearBody` | activemq-cpp/src/main/activemq/commands/ActiveMQBytesMessage.cpp:182-191 | An empty, writable body with no stream open. |
| `BytesMessage.ActiveMQBytesMessage.Clone` | activemq-cpp/src/main/activemq/commands/ActiveMQBytesMessage.cpp:95-129 | The copy has the stored content and is writable; the source's output stream is stored and dropped. |
| `BytesMessage.ActiveMQBytesMessage.InitializeWriting` | activemq-cpp/src/main/activemq/commands/ActiveMQBytesMessage.cpp:656-679 | Refused in read-only mode; otherwise the stream is open, and opened once. |
| `BytesMessage.ActiveMQBytesMessage.WriteBytes` | activemq-cpp/src/main/activemq/commands/ActiveMQBytesMessage.cpp:275-285 | Appends to what is pending, or is refused in read-only mode. |
| `BytesMessage.ActiveMQBytesMessage.WriteRange` | activemq-cpp/src/main/activemq/commands/ActiveMQBytesMessage.cpp:323-333 | The code's bounds check as it stands. |
| `BytesMessage.ActiveMQBytesMessage.Fill` | activemq-cpp/src/main/activemq/commands/ActiveMQBytesMessage.cpp:297-305 | The read loop fills the buffer or reaches the end, and ends, for every positive short-read behaviour of the stream. |
| `BytesMessage.ActiveMQBytesMessage.ReadBytes` | activemq-cpp/src/main/activemq/commands/ActiveMQBytesMessage.cpp:288-320 | The buffer gets exactly the next bytes and is otherwise unchanged; errors leave it alone. |
| `BytesMessage.ActiveMQBytesMessage.ReadAllData` | activemq-cpp/src/main/decaf/io/DataInputStream.cpp:460-476 | All bytes of a value, or the rest of the body is used up and the read fails. |
| `BytesMessage.ActiveMQBytesMessage.ReadValue` | activemq-cpp/src/main/activemq/commands/ActiveMQBytesMessage.cpp:214-226 | The typed reads: refused when write-only, end of body, or the decoded value. |
| `BytesMessage.ActiveMQBytesMessage.GetBodyLength` | activemq-cpp/src/main/activemq/commands/ActiveMQBytesMessage.cpp:172-179 | Refused when write-only; otherwise the length of the content. |
| `MapMessage.LazyIsEager` | activemq-cpp/src/main/activemq/commands/ActiveMQMapMessage.cpp:143-196 | In every sequence of gets, sets, clones, clears and sends, on any content, the lazily decoded message answers as an eagerly decoded one. |
| `MapMessage.BeforeMarshalKeepsExact` | activemq-cpp/src/main/activemq/commands/ActiveMQMapMessage.cpp:105-140 | beforeMarshal keeps the map if and only if it has been decoded or is empty. |
| `MapMessage.PassedOnUnread` | activemq-cpp/src/main/activemq/commands/ActiveMQMapMessage.cpp:112-135 | A received message marshalled again without being read loses its map. |
| `MapMessage.ContentInSync` | activemq-cpp/src/main/activemq/commands/ActiveMQMapMessage.cpp:112-132 | After beforeMarshal the content decodes to the map that the message shows, for every inverse marshaller pair. |
| `MapMessage.ReadOnlyKeptExact` | activemq-cpp/src/main/activemq/commands/ActiveMQMapMessage.cpp:133-135 | beforeMarshal keeps a sent message read-only if and only if its decoded map is not empty. |
| `MapMessage.ActiveMQMapMessage.CheckMapIsUnmarshalled` | activemq-cpp/src/main/activemq/commands/ActiveMQMapMessage.cpp:167-196 | Decodes once, on demand; undecodable content fails and stays undecoded. |
| `MapMessage.ActiveMQMapMessage.SetItem` | activemq-cpp/src/main/activemq/commands/ActiveMQMapMessage.cpp:276-283 | Refused when read-only; otherwise updates the decoded map. |
| `MapMessage.ActiveMQMapMessage.GetItem` | activemq-cpp/src/main/activemq/commands/ActiveMQMapMessage.cpp:265-273 | Answers from the decoded map. |
| `MapMessage.ActiveMQMapMessage.Clear` | activemq-cpp/src/main/activemq/commands/ActiveMQMapMessage.cpp:99-102 | An empty, decoded, writable body. |
| `MapMessage.ActiveMQMapMessage.PrepareToMarshal` | activemq-cpp/src/main/activemq/commands/ActiveMQMapMessage.cpp:105-140 | beforeMarshal as it stands. |
| `MapMessage.ActiveMQMapMessage.Clone` | activemq-cpp/src/main/activemq/commands/ActiveMQMapMessage.cpp:63-86 | A writable copy that shows the same map. |
| `DestinationNames.StripExact` | activemq-cpp/src/main/activemq/commands/ActiveMQDestination.cpp:93-108 | The stored name is the text before the first `?`, and all of it exactly when there is none. |
| `DestinationNames.PrintThenParse` | activemq-cpp/src/main/activemq/commands/ActiveMQDestination.cpp:132-221 | Parsing the printed form, under any default type, gives back type and name if and only if the name has no question mark; names that look qualified included. |
| `DestinationNames.QualifierOfEachKind` | activemq-cpp/src/main/activemq/commands/ActiveMQDestination.cpp:48-51 | Which literal prefix each type prints, and that text with that prefix parses to that type under every default. |
| `DestinationNames.NumberOfEachKind` | activemq-cpp/src/main/activemq/commands/ActiveMQDestination.cpp:203-222 | Text with none of the four prefixes takes the default type: 0 topic, 1 queue, 2 temporary topic, 3 temporary queue; other numbers are refused. |
| `DestinationNames.TemporaryNameText` | activemq-cpp/src/main/activemq/commands/ActiveMQDestination.h:292-294 | Temporary names are `{TD{` id `}TD}`, and no other kind of destination has a client id. |
| `DestinationNames.ParsedNamesAreStored` | activemq-cpp/src/main/activemq/commands/ActiveMQDestination.cpp:186-221 | Every parsed destination survives printing and parsing. |
| `DestinationNames.ClientIdRoundTrip` | activemq-cpp/src/main/activemq/commands/ActiveMQDestination.cpp:168-183 | getClientId recovers the id from a temporary name, for every id including empty ones and ids full of markers, if and only if it has no question mark. |
| `CompositeDestinations.TrimExact` | activemq-cpp/src/main/activemq/commands/ActiveMQDestination.cpp:57-70 | trim() yields the stretch between the blanks and tabs at both ends, and nothing else does. |
| `CompositeDestinations.TrimEmpty` | activemq-cpp/src/main/activemq/commands/ActiveMQDestination.cpp:57-64 | trim() leaves nothing exactly of a text that is all blanks and tabs. |
| `CompositeDestinations.TokensExact` | activemq-cpp/src/main/activemq/commands/ActiveMQDestination.cpp:250-257 | A token is, said without trim(), a maximal comma-free stretch between its blank ends, if not empty. |
| `CompositeDestinations.OnePerToken` | activemq-cpp/src/main/activemq/commands/ActiveMQDestination.cpp:241-266 | The decomposition has one destination per distinct token, each made from its token; tokens are described without trim(). |
| `CompositeDestinations.OneLevel` | activemq-cpp/src/main/activemq/commands/ActiveMQDestination.cpp:241-266 | No component is composite, so decomposition ends after one level. |
| `CompositeDestinations.SameComponentExact` | activemq-cpp/src/main/activemq/commands/ActiveMQDestination.cpp:186-222 | Two tokens give the same destination exactly when one is the other, itself without a prefix, qualified with the composite's own type. |
| `CompositeDestinations.DuplicateFreeExact` | activemq-cpp/src/main/activemq/commands/ActiveMQDestination.cpp:241-266 | The decomposition of a stored name lists no destination twice if and only if its tokens hold no such pair. |
| `CompositeDestinations.DuplicateExample` | activemq-cpp/src/main/activemq/commands/ActiveMQDestination.cpp:241-266 | The queue `a,queue://a` decomposes into the queue `a` twice. |
| `CompositeDestinations.ActiveMQDestination.SetPhysicalName` | activemq-cpp/src/main/activemq/commands/ActiveMQDestination.cpp:93-108 | Strips the options and forgets the kept components. |
| `CompositeDestinations.ActiveMQDestination.CopyDataStructure` | activemq-cpp/src/main/activemq/commands/ActiveMQDestination.cpp:111-129 | Takes over the name; what is kept stays in agreement with it. |
| `CompositeDestinations.ActiveMQDestination.CollectTokens` | activemq-cpp/src/main/activemq/commands/ActiveMQDestination.cpp:249-257 | The tokenizer loop collects exactly the trimmed non-empty comma tokens. |
| `CompositeDestinations.ActiveMQDestination.GetCompositeDestinations` | activemq-cpp/src/main/activemq/commands/ActiveMQDestination.cpp:241-266 | What is returned, kept or computed, is always the decomposition of the current name. |

## Left out

- Compression of message bodies: deflated content and its length prefix.
- String, UTF, char, float and double reads and writes of bytes messages, and getBodyBytes.
- The advisory flag, options, ordering and hashing of destinations; URI option parsing.
- The marshaller's byte format; any inverse pair stands for it.
- Message properties and identifiers; only the read-only flag that onSend sets is modelled.
- Several threads on one template: the class takes no lock.  Only the session pool is shared.
- Sessions, producers and browsers that a callback creates on the raw session for itself.
- Quality-of-service settings, the values of the message-id and timestamp flags, and receive timeouts, which change no template state; a receive that times out counts as one that returns a message.
- Setting a null or custom destination resolver, and null producer callbacks.
- SessionPool, PooledSession, SessionResolver, CachedProducer and CachedConsumer objects live in the modelled heap rather than in Dafny classes, because the code deletes them.
- BytesMessage.ActiveMQBytesMessage.WriteRange: follows the code, which refuses positive offsets, and so does less than the documentation says.
- MapMessage.ActiveMQMapMessage.PrepareToMarshal: follows the code, which clears an undecoded body.
