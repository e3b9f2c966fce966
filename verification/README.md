# Cordis runtime: a model of its concurrent protocols

`cordis-runtime` keeps plugins alive, replaces them while they run, and takes them down again.  Its
registries are shared by many threads, so most of what it promises is about interleavings: nothing is
cleaned up while somebody still uses it, no registration is lost, a reload happens as a whole or not
at all.  This project models those protocols and proves the promises for every run.

The modules follow the program:

- `GenerationWord`, `GateProtocol` - the packed admission word of a plugin generation and the
  compare-exchange loops around it; the loops are shown to be a simple gate with a set of leases.
- `CapabilityGate`, `GateRaces` - selectors and gates as the registries use them, and the same
  operations one atomic access at a time.
- `FiberLifecycle` - contexts, dispatches, activation, restart and disposal of one plugin instance, on
  such gates.
- `EventBus` - the arena of handlers, the slots created and deleted with their last handler, and the
  snapshots that dispatches read.
- `Session`, `Bytes`, `Protocol`, `Codec`, `Framing` - the client side of a hosted plugin process: its
  pending table against terminal transitions, and the wire format, the encoder, the decoder and the
  two actors that frame it.
- `ServiceRegistry`, `Resolution` - services, the resolution cache, and its agreement with the walk
  from a scope to the root.
- `DependencyGraph` - provider lists, their move, and the search for cycles.
- `Scopes`, `ScopeDisposal` - the scope arena, and scopes created, moved, disposed and reclaimed
  concurrently.
- `Invocation` - handlers, middleware and the snapshot an invocation runs on.
- `Reload` - the hot-reload transaction over all of these registries, as one thread runs it.
- `ReloadProtocol`, `ReloadRefinement`, `StagingLeftovers`, `RepeatedServices`, `ReloadRuns` - the same
  transaction section by section among all other threads; that it is one atomic step to them, or none;
  what can be left in the staging scope after it; when it panics; and runs that are possible.
- `Wrappers`, `Sequences`, `FiberStates` - what several modules share.

Two forms are used.  An object whose methods update its fields is a class whose methods are proved
against a function of the old state.  A protocol of several threads is a step system: one state, one
step per critical section, exchange, load or store, and theorems over runs of any length and any
number of threads.  All atomics are taken to be sequentially consistent.  A Tokio notification future
created before a wake-up of all waiters is taken to be woken by it.

## Where the promise and the code differ

- *Event dispatch.*  The list a dispatch runs on need not be the arena's list at any instant of the
  dispatch: it can fall as a whole between the arena change of a registration or removal and the store
  of the snapshot.  `EventBus.DispatchMatchesArena` gives the exact condition,
  `EventBus.DispatchMayMissArena` a run that fails it.  What always holds is
  `EventBus.DispatchLinearizes`.
- *Decoding.*  Any presence octet other than 1 is read as absent details, so acceptance is canonical
  except for that octet (`Protocol.AcceptedExactly`, `Protocol.OnlyTheMarkVaries`).
- *Scope disposal.*  A parent can end Terminated although no scope below it did: a child that somebody
  else disposed cleanly and that was reclaimed before the parent's body looked for it counts as not
  committed; `ScopeDisposal.ReclaimedChildTerminatesParent` is a run of it, and
  `ScopeDisposal.TerminatedExactly` says exactly when a disposal terminates.  A staging scope is disposed
  while a scope it once had lives on under the reload's target
  (`ScopeDisposal.MovedChildOutlivesStaging`); nothing else outlives what it was below
  (`ScopeDisposal.OnlyMovedOutlive`).
- *Reload.*  The transaction leaves nothing of the staged plugin in the staging scope, but an operation
  that looked at the plugin's record before the transaction took it still acts in that scope, and may
  register there once the plugin is adopted (`StagingLeftovers.StaleScopeRace`).  That is exactly how
  anything gets to be there (`StagingLeftovers.LeftInStagingExactly`,
  `StagingLeftovers.LateWasAdmittedBefore`), and it can from every state in which such an operation is
  left (`StagingLeftovers.WhoIsInsideCanLeave`).
- *Withdrawal of services.*  A disposal withdraws services in the scope its record is bound to by then;
  a service that an adopted plugin has registered late in the staging scope is taken off the list and
  never withdrawn (`StagingLeftovers.LateServiceStays`, `StagingLeftovers.WithdrawalMissesExactly`).
- *Panic in a reload.*  The section that moves the services takes for granted that what it has checked is
  there.  A service that is listed twice is not there the second time, and the transaction ends in a panic
  after its exchange, half done; exactly then (`ReloadRefinement.AllOrNothing`).  It takes another provider
  that inserts over the staged plugin's service, and withdraws it, for a service to be listed twice
  (`RepeatedServices.PanicsOnlyIfTaken`, `RepeatedServices.SecondRegistrationPanics`).
- *Resolution.*  A provider hidden between the look that locates it and the last one yields no answer
  even if one further up is visible: `Resolution.HiddenBeforeLastLook` is a run of it,
  `Resolution.ResolutionRefinesWalk` the exact condition.
- *Gates.*  Taken by itself, a publication that read the retired flag before a close can make the closed
  gate visible after it; `GateRaces.ShownAgainExactly` says when that is possible.  Callers hold the
  fiber's record lock, and a closed gate admits nobody.
- *Activation.*  A staged activation writes the state Active over whatever is there, even over
  Disposing.  The fence and the drain do not depend on the state; such a disposal ends Terminated
  (`FiberLifecycle.OverwrittenTerminates`).
- *Permanent disposal.*  A request for permanent disposal is meant to dominate one that waits for
  dependencies, but the body reads once, before it finalizes, what the fiber is to become: a request that
  comes after that is lost and the fiber can be started again (`FiberLifecycle.LateRequestIsLost`).
  `FiberLifecycle.CompletesAsAsked` says exactly which requests count.
- *Negotiation.*  A negotiation that finds permits in use has already given some up; the session then
  fails (`Session`, state Broken of the permits).

## Model

| member | source | states |
|---|---|---|
| GenerationWord.PackRoundTrip | cordis-runtime/src/gate.rs:107-122 | a state and a counter come out of the packed word as they went in exactly if the counter is at most `usize::MAX >> 2` |
| GenerationWord.UnpackRoundTrip | cordis-runtime/src/gate.rs:107-122 | every decodable word is the packing of what it decodes to |
| GenerationWord.AcquireWordMeaning | cordis-runtime/src/gate.rs:163-183 | an acquiring exchange adds one lease and nothing else, below the counter limit |
| GenerationWord.DrainWordMeaning | cordis-runtime/src/gate.rs:198-211 | a closing exchange keeps the counter and closes to Drained if it is zero, else to Draining |
| GenerationWord.DropWordMeaning | cordis-runtime/src/gate.rs:252-266 | a releasing exchange takes one lease off and drains a draining word that reaches zero |
| GateProtocol.NextInv | cordis-runtime/src/gate.rs:145-281 | every step of every compare-exchange loop keeps the accounting invariant |
| GateProtocol.LeaseAccounting | cordis-runtime/src/gate.rs:145-281 | in every reachable state the word decodes to the number of live leases, Draining implies some and Drained none, service handles never exceed leases, no underflow assertion can fire |
| GateProtocol.AdmissionStaysClosed | cordis-runtime/src/gate.rs:163-211 | once draining has started no acquisition succeeds, and Drained is absorbing |
| GateProtocol.DrainedReportIsFinal | cordis-runtime/src/gate.rs:227-241 | a drain that reported Drained is followed only by states without leases |
| GateProtocol.TimeoutReportsLeases | cordis-runtime/src/gate.rs:227-241 | a timeout reports a positive number, and so many leases were live at an instant of the wait |
| GateProtocol.RefusedOnlyWhenClosed | cordis-runtime/src/gate.rs:163-196 | an acquisition that comes back empty was refused by a gate that had begun to drain, one that panics had found the gate accepting and the counter full, and every other has its lease |
| GateProtocol.NoLostWakeUp | cordis-runtime/src/gate.rs:198-281 | a drain waiter on a Drained word has been notified, or the one thread that stored Drained is about to notify |
| GateProtocol.DrainEndsAsCalled | cordis-runtime/src/gate.rs:198-229 | when the loop of a drain is left the gate admits no more, and the drain waits if it was called to wait and is over if it was not |
| GateProtocol.RefinesSimpleGate | cordis-runtime/src/gate.rs:145-281 | every step of the loops is one step of a gate with a state and a set of leases: admit, close, release, or nothing |
| GateProtocol.NeverStuck | cordis-runtime/src/gate.rs:145-281 | no thread of the protocol is ever without a step, except one that sleeps on live leases or has panicked on overflow |
| CapabilityGate.Gates.Switch | cordis-runtime/src/gate.rs:24-38 | the selector moves exactly if it named the expected generation |
| CapabilityGate.Gates.Publish | cordis-runtime/src/gate.rs:316-319 | a gate becomes visible exactly if it is not retired and the selector named none |
| CapabilityGate.Gates.Close | cordis-runtime/src/gate.rs:325-329 | a closed gate is hidden, retired and draining; no other gate changes visibility |
| CapabilityGate.Gates.CutoverFrom | cordis-runtime/src/gate.rs:335-345 | exactly if the new gate is not retired, shares the selector and the old one is visible, one switch shows the new and hides, retires and drains the old; otherwise nothing changes |
| GateRaces.RetiredBeforeFenced | cordis-runtime/src/gate.rs:316-345 | with accesses interleaved, no generation is fenced that is not retired |
| GateRaces.HiddenForGood | cordis-runtime/src/gate.rs:316-345 | a retired hidden gate stays hidden for good, provided nobody holds a clear flag read before |
| GateRaces.FencedForGood | cordis-runtime/src/gate.rs:325-345 | a fenced generation stays fenced and retired |
| GateRaces.ShownAgainExactly | cordis-runtime/src/gate.rs:316-345 | in every state of every run a retired hidden gate is shown in some continuation if and only if somebody publishes it with the clear flag in hand, or cuts over to it from a generation that is live, not retired, or itself so reachable |
| GateRaces.ClearFlagShows | cordis-runtime/src/gate.rs:316-319 | from every state a publisher with the clear flag in hand can show its gate, whatever is live |
| GateRaces.PublisherShowsClosedGate | cordis-runtime/src/gate.rs:316-329 | the proviso is needed: a publisher that looked before the close can show the closed gate after it |
| GateRaces.PublishAlone | cordis-runtime/src/gate.rs:316-319 | left alone, a publication shows its gate exactly if it is not retired and none is shown |
| GateRaces.CloseAlone | cordis-runtime/src/gate.rs:325-329 | left alone, a close hides, retires and fences its gate and touches no other |
| GateRaces.CutoverAlone | cordis-runtime/src/gate.rs:335-345 | left alone, a cutover swaps the two exactly if the new gate is not retired and the old one is shown, and then retires and fences the old one; otherwise nothing changes |
| EventBus.NextInv | cordis-runtime/src/event_bus.rs:65-198 | every lock section and store of registrations, removals and dispatches keeps the agreement of arena, slots and snapshots |
| EventBus.BusAgreement | cordis-runtime/src/event_bus.rs:65-198 | an event with a handler in the arena has a slot, and outside that slot's writer section its snapshot is the arena's ids of the event in order of registration |
| EventBus.OnlyTakeRemoves | cordis-runtime/src/event_bus.rs:174-188 | an entry leaves the arena only by its own removal |
| EventBus.NoRegistrationLost | cordis-runtime/src/event_bus.rs:99-132 | a completed registration is in the arena, or has been removed by a removal of its id |
| EventBus.GoneForEver | cordis-runtime/src/event_bus.rs:174-198 | a removed id is in no snapshot ever again |
| EventBus.RemovedNeverReappears | cordis-runtime/src/event_bus.rs:174-206 | no dispatch that starts after a removal answered true sees the id; when a removal answers true is in the rows that follow |
| EventBus.RemovalAnswersTruly | cordis-runtime/src/event_bus.rs:174-199 | in every run a removal answers true if and only if it took the id out of the arena itself, at exactly one step of its own; one that answers false had an instant between its call and its return at which the id was not in the arena |
| EventBus.RemovalOfRegisteredSucceeds | cordis-runtime/src/event_bus.rs:174-199 | a removal of an id that stays in the arena unless this removal takes it answers true |
| EventBus.OnlyOneRemovalSucceeds | cordis-runtime/src/event_bus.rs:174-199 | of all removals of one id in a run at most one answers true |
| EventBus.LeavesOnce | cordis-runtime/src/event_bus.rs:174-199 | an id leaves the arena at most once in a run |
| EventBus.EmptiedSlotLeaves | cordis-runtime/src/event_bus.rs:184-198 | when a removal has published, its event has a slot if and only if it has a handler left |
| EventBus.DispatchLinearizes | cordis-runtime/src/event_bus.rs:201-206 | the list of a dispatch is the event's published list at some instant during the dispatch |
| EventBus.DispatchMatchesArena | cordis-runtime/src/event_bus.rs:201-206 | that list equals the arena's at some instant of the dispatch if and only if the whole dispatch does not fall into one writer section that has changed the arena and not yet stored |
| EventBus.DispatchMayMissArena | cordis-runtime/src/event_bus.rs:99-132 | a run in which it does fall into one, so that the list equals the arena's at no instant |
| Session.IdsNext | cordis-runtime/src/host/process.rs:396-413 | every step keeps ids of live requests distinct, issued, and in the table and the queue at most the high-water mark |
| Session.EndNext | cordis-runtime/src/host/process.rs:303-371 | every step keeps the terminal state, its error, its lock and its one notifier consistent |
| Session.TableNext | cordis-runtime/src/host/process.rs:463-525 | every step keeps each table entry with its waiting request and each taken sender with one dispatcher |
| Session.PermitsNext | cordis-runtime/src/host/process.rs:578-604 | available permits and permits held add up to the limit in force, through acquisition, cancellation and negotiation |
| Session.NextInv | cordis-runtime/src/host/process.rs:303-604 | every step keeps all of these together |
| Session.NobodyLeftWaiting | cordis-runtime/src/host/process.rs:315-377 | after the table has been drained a waiting request has its answer or a dispatcher about to send it, and an entry belongs to a request that is leaving or whose re-check is about to fail |
| Session.LateEntryIsWithdrawn | cordis-runtime/src/host/process.rs:484-501 | in every run a request that registered too late stays on its way out, whatever others do, until it has taken its entry out: it neither sends nor waits |
| Session.AnsweredAtMostOnce | cordis-runtime/src/host/process.rs:1170-1212 | no request is answered twice in a run, and an answer never changes; what the answer is stands in the two rows that follow |
| Session.AnswerIsWhatWasSettled | cordis-runtime/src/host/process.rs:1170-1212 | in every run what a request is answered was settled before, by the verdict with which a dispatcher took its sender or by the error of the winning transition that drained the table; and what was settled is the answer, or still in the hands of the dispatcher that will send it |
| Session.AnswerExactly | cordis-runtime/src/host/process.rs:1184-1212 | an answer is the reply if and only if a dispatcher with an accepting verdict took the sender; it is an error if and only if a dispatcher took the sender with that error as its verdict, or the table was drained with it as the terminal error |
| Session.TurnedAwayExactly | cordis-runtime/src/host/process.rs:463-525 | in every run a call is turned away only for another state than the required one, for want of a permit, for want of ids, or by a writer that is gone, and where the state is asked for exactly if it is another one; a waiting call ends with an answer or when its caller gives up |
| Session.GetsThrough | cordis-runtime/src/host/process.rs:463-525 | a call in the required state with a permit and an id left, left alone, ends up in the table and in the writer's queue under the next id, and changes nothing else |
| Session.ReplyAlone | cordis-runtime/src/host/process.rs:1170-1212 | a fitting reply, left alone, is handed to the request that waits for it and changes nothing else; one that nobody waits for changes nothing |
| Session.MismatchAlone | cordis-runtime/src/host/process.rs:1184-1212 | a reply that does not fit, left alone, fails the session with its error, and its own request and all others are refused with that |
| Session.FutureReplyAlone | cordis-runtime/src/host/process.rs:1170-1182 | a reply to an id that has not been issued fails the session, and everybody who waits is refused with that |
| Session.EndAlone | cordis-runtime/src/host/process.rs:315-377 | a terminal transition, left alone, sets state and error, drains the table and notifies once, or changes nothing if the session has ended |
| Session.QueuedFor | cordis-runtime/src/host/process.rs:502-516 | the writer is handed ids one at a time: a registered call's own message, or the cancellation of an abandoned one while the session is ready or draining |
| Session.CancelledWasSent | cordis-runtime/src/host/process.rs:800-815 | only an invocation that was sent and waited is ever cancelled |
| Session.FirstTerminalWins | cordis-runtime/src/host/process.rs:315-371 | the first terminal state of a session, and its error, stay for ever |
| Session.TerminalErrorHasCause | cordis-runtime/src/host/process.rs:315-342 | in every run the session's error is one somebody failed it with, or that of a reply from the future, or the error of the verdict of a reply that did not match |
| Session.StatesAdvance | cordis-runtime/src/host/process.rs:303-371 | a session goes through its states in order, one at a time unless it ends |
| Session.FailedObserverFindsError | cordis-runtime/src/host/process.rs:447-461 | who saw Failed reads the error as soon as it can read; who sleeps on an ended session has been notified or the winner has yet to notify |
| Session.IdsNeverReused | cordis-runtime/src/host/process.rs:396-413 | no id is handed out twice, and neither 0 nor `u64::MAX` is |
| Session.GenuineReplyIsNotFuture | cordis-runtime/src/host/process.rs:1170-1182 | a reply to anything ever queued is never judged to come from the future |
| Session.CapacityBound | cordis-runtime/src/host/process.rs:578-604 | pending requests never exceed permits held, nor these the limit in force |
| Session.NegotiationBreaksExactly | cordis-runtime/src/host/process.rs:578-604 | negotiating a lower limit breaks if and only if more permits are held than it allows |
| Bytes.ValueOfBigEndian | cordis-runtime/src/host/protocol.rs:164-177 | big-endian octets read back as the number, for every number that fits |
| Bytes.BigEndianOfValue | cordis-runtime/src/host/protocol.rs:414-437 | octets are the big-endian form of the number they read as |
| Bytes.Utf8Exactly | cordis-runtime/src/host/protocol.rs:448-452 | octets pass as text if and only if they are the encoding of a sequence of Unicode scalar values |
| Protocol.KindOf | cordis-runtime/src/host/protocol.rs:646-674 | exactly the codes some failure kind is written with are read, each as that kind |
| Protocol.MessageBack | cordis-runtime/src/host/protocol.rs:471-569 | every message that has a wire form is read back from it, with any octet but 1 marking absent details, if it is within the limits, and is refused as too large, and as nothing else, if it is not |
| Protocol.MessageSpelled | cordis-runtime/src/host/protocol.rs:471-569 | what is accepted is such a wire form of a message within the limits |
| Protocol.AcceptedExactly | cordis-runtime/src/host/protocol.rs:471-569 | the two together: acceptance as a given message, if and only if |
| Protocol.AllBack | cordis-runtime/src/host/protocol.rs:588-629 | arrays of any element that reads back read back |
| Protocol.AllSpelled | cordis-runtime/src/host/protocol.rs:588-629 | an array that is read is the elements' forms in order, as many as announced |
| Protocol.DomainBack | cordis-runtime/src/host/protocol.rs:631-644 | a domain error with or without details reads back, whatever marks absence except 1 |
| Protocol.PrefixFree | cordis-runtime/src/host/protocol.rs:462-569 | what follows an accepted payload makes it a violation: no accepted payload begins another |
| Protocol.SizeRefusalStands | cordis-runtime/src/host/protocol.rs:438-447 | a refusal for size is the same whatever follows |
| Protocol.CutIsViolation | cordis-runtime/src/host/protocol.rs:400-412 | an accepted payload cut short anywhere is a violation, never too large and never another message |
| Protocol.OnlyTheMarkVaries | cordis-runtime/src/host/protocol.rs:637-643 | the tolerated octet is the presence octet of absent details and nothing else |
| Protocol.DecodingIsCanonical | cordis-runtime/src/host/protocol.rs:471-644 | an accepted payload is the encoding of its message, or differs from it in that octet alone |
| Protocol.ControlAgrees | cordis-runtime/src/host/protocol.rs:142-156 | payload class and message class agree on everything encoded |
| Protocol.ControlAgreesOnAccepted | cordis-runtime/src/host/protocol.rs:142-156 | and on everything accepted |
| Codec.Encoder.Extend | cordis-runtime/src/host/protocol.rs:175-177 | what will follow stands behind the wire form: octets are appended |
| Codec.Encoder.U8 | cordis-runtime/src/host/protocol.rs:164-166 | what will follow stands behind the wire form: an octet is appended |
| Codec.Encoder.U16 | cordis-runtime/src/host/protocol.rs:167-169 | what will follow stands behind the wire form: two octets, big-endian |
| Codec.Encoder.U32 | cordis-runtime/src/host/protocol.rs:170-174 | what will follow stands behind the wire form: four octets, or a violation exactly if the number has no such form |
| Codec.Encoder.U64 | cordis-runtime/src/host/protocol.rs:175-177 | what will follow stands behind the wire form: eight octets |
| Codec.Encoder.Bytes | cordis-runtime/src/host/protocol.rs:178-182 | what will follow stands behind the wire form: length and octets, or a violation exactly if the length has no form |
| Codec.Encoder.Limits | cordis-runtime/src/host/protocol.rs:186-192 | what will follow stands behind the wire form: the five limits in order |
| Codec.Encoder.Greet | cordis-runtime/src/host/protocol.rs:199-230 | what will follow stands behind the wire form: versions, features and limits of a greeting |
| Codec.Encoder.Key | cordis-runtime/src/host/protocol.rs:372-382 | what will follow stands behind the wire form: namespace, name and version |
| Codec.Encoder.Keys | cordis-runtime/src/host/protocol.rs:357-364 | what will follow stands behind the wire form: the count and every key, or a violation |
| Codec.Encoder.Declarations | cordis-runtime/src/host/protocol.rs:258-266 | what will follow stands behind the wire form: the count and every declaration, or a violation |
| Codec.Encoder.Descriptor | cordis-runtime/src/host/protocol.rs:355-371 | what will follow stands behind the wire form: the descriptor's fields in order |
| Codec.Encoder.Host | cordis-runtime/src/host/protocol.rs:288-292 | what will follow stands behind the wire form: kind code and message |
| Codec.Encoder.Domain | cordis-runtime/src/host/protocol.rs:384-395 | what will follow stands behind the wire form: code, message, and details behind their presence octet |
| Codec.Encoder.Failed | cordis-runtime/src/host/protocol.rs:284-306 | what will follow stands behind the wire form: the category and its error |
| Codec.Encoder.Outcome | cordis-runtime/src/host/protocol.rs:321-340 | what will follow stands behind the wire form: the category and its payload |
| Codec.Encoder.Body | cordis-runtime/src/host/protocol.rs:198-344 | what will follow stands behind the wire form: the body of every message kind |
| Codec.Encode | cordis-runtime/src/host/protocol.rs:196-353 | the wire form, a violation exactly if some length has no four-octet form, too large exactly if the whole exceeds the limit |
| Codec.Decoder.Take | cordis-runtime/src/host/protocol.rs:402-413 | the cursor method answers, and leaves unread, what the parsing function says; errors included |
| Codec.Decoder.U8 | cordis-runtime/src/host/protocol.rs:414-416 | the cursor method answers, and leaves unread, what the parsing function says; errors included |
| Codec.Decoder.U16 | cordis-runtime/src/host/protocol.rs:417-423 | the cursor method answers, and leaves unread, what the parsing function says; errors included |
| Codec.Decoder.U32 | cordis-runtime/src/host/protocol.rs:424-430 | the cursor method answers, and leaves unread, what the parsing function says; errors included |
| Codec.Decoder.U64 | cordis-runtime/src/host/protocol.rs:431-437 | the cursor method answers, and leaves unread, what the parsing function says; errors included |
| Codec.Decoder.Bytes | cordis-runtime/src/host/protocol.rs:438-447 | the cursor method answers, and leaves unread, what the parsing function says; errors included |
| Codec.Decoder.Text | cordis-runtime/src/host/protocol.rs:448-452 | the cursor method answers, and leaves unread, what the parsing function says; errors included |
| Codec.Decoder.Limits | cordis-runtime/src/host/protocol.rs:453-461 | the cursor method answers, and leaves unread, what the parsing function says; errors included |
| Codec.Decoder.Greet | cordis-runtime/src/host/protocol.rs:479-494 | the cursor method answers, and leaves unread, what the parsing function says; errors included |
| Codec.Decoder.Key | cordis-runtime/src/host/protocol.rs:598-601 | the cursor method answers, and leaves unread, what the parsing function says; errors included |
| Codec.Decoder.Keys | cordis-runtime/src/host/protocol.rs:588-604 | the cursor method answers, and leaves unread, what the parsing function says; errors included |
| Codec.Decoder.Declarations | cordis-runtime/src/host/protocol.rs:606-629 | the cursor method answers, and leaves unread, what the parsing function says; errors included |
| Codec.Decoder.Declared | cordis-runtime/src/host/protocol.rs:619-626 | the cursor method answers, and leaves unread, what the parsing function says; errors included |
| Codec.Decoder.Descriptor | cordis-runtime/src/host/protocol.rs:571-587 | the cursor method answers, and leaves unread, what the parsing function says; errors included |
| Codec.Decoder.Host | cordis-runtime/src/host/protocol.rs:523-525 | the cursor method answers, and leaves unread, what the parsing function says; errors included |
| Codec.Decoder.Domain | cordis-runtime/src/host/protocol.rs:631-644 | the cursor method answers, and leaves unread, what the parsing function says; errors included |
| Codec.Decoder.Failed | cordis-runtime/src/host/protocol.rs:521-541 | the cursor method answers, and leaves unread, what the parsing function says; errors included |
| Codec.Decoder.Outcome | cordis-runtime/src/host/protocol.rs:549-563 | the cursor method answers, and leaves unread, what the parsing function says; errors included |
| Codec.Decoder.Loading | cordis-runtime/src/host/protocol.rs:495-500 | the cursor method answers, and leaves unread, what the parsing function says; errors included |
| Codec.Decoder.Invoking | cordis-runtime/src/host/protocol.rs:542-548 | the cursor method answers, and leaves unread, what the parsing function says; errors included |
| Codec.Decoder.Body | cordis-runtime/src/host/protocol.rs:478-566 | the cursor method answers, and leaves unread, what the parsing function says; errors included |
| Codec.Decoder.Finish | cordis-runtime/src/host/protocol.rs:462-468 | the cursor method answers, and leaves unread, what the parsing function says; errors included |
| Codec.Decode | cordis-runtime/src/host/protocol.rs:471-569 | decoding is parsing: tag, id, body and nothing behind |
| Framing.RoundTrip | cordis-runtime/src/host/protocol.rs:196-569 | an encodable message decodes to itself exactly if it is within the receiver's limits; one within them is encodable exactly if the frame has room |
| Framing.WriteNext | cordis-runtime/src/host/process.rs:1069-1103 | one turn of the writer frames the message under the bounds then in force, or fails for the reason the encoder or the length gives |
| Framing.BoundsOfClass | cordis-runtime/src/host/process.rs:1071-1100 | a message is framed if and only if all its lengths have a four-octet form and it is within the frame limit and, for a control message alone, the control limit; it is too large exactly if only its size stands in the way |
| Framing.Write | cordis-runtime/src/host/process.rs:1050-1103 | the writer sends exactly the frames of the longest run of messages it can frame, and says why it stopped |
| Framing.Read | cordis-runtime/src/host/process.rs:1123-1168 | the reader hands over exactly what the frames of the stream decode to, each under the bounds and limits then in force, up to the first fault |
| Framing.FrameBack | cordis-runtime/src/host/process.rs:1225-1251 | a framed payload is read as itself, and what follows is left |
| Framing.OversizeFrame | cordis-runtime/src/host/process.rs:1225-1251 | a frame that announces more than the limit is refused as too large from its length alone, whatever follows |
| Framing.CutFrame | cordis-runtime/src/host/process.rs:1225-1251 | a frame cut short ends in closed within its length and in a violation behind it |
| Framing.StreamReadsBack | cordis-runtime/src/host/process.rs:1050-1168 | any sequence of messages, each receivable under what is in force at its turn, framed and concatenated, is delivered as that sequence, and reading goes on behind it |
| Framing.TruncatedStream | cordis-runtime/src/host/process.rs:1225-1251 | a stream cut anywhere delivers a beginning of the sequence, all of it exactly if nothing was cut, and ends in closed or violation |
| Framing.NothingInvented | cordis-runtime/src/host/process.rs:1123-1168 | whatever the stream, what is delivered is what the payloads it begins with are admitted as, one each and in order |
| ServiceRegistry.WalkIsFirstVisible | cordis-runtime/src/service_registry.rs:212-217 | the plain walk stops at the first visible entry and nowhere else |
| ServiceRegistry.WalkSaw | cordis-runtime/src/service_registry.rs:212-217 | and what its answer says about the scopes on the way |
| ServiceRegistry.OldestLeaves | cordis-runtime/src/service_registry.rs:230-234 | dropping the oldest keeps queue and cache in step |
| ServiceRegistry.RoomIsMade | cordis-runtime/src/service_registry.rs:229-236 | the eviction loop finds a queue to pop from, and at most the oldest entry leaves |
| ServiceRegistry.RememberKeeps | cordis-runtime/src/service_registry.rs:226-247 | after every miss the queue lists each cached key once, epochs are current and the size is within its bound |
| ServiceRegistry.ServiceRegistry.constructor | cordis-runtime/src/service_registry.rs:53-62 | an empty registry |
| ServiceRegistry.ServiceRegistry.Bump | cordis-runtime/src/service_registry.rs:308-312 | the epoch moves on, wrapping, and the cache is empty |
| ServiceRegistry.ServiceRegistry.Insert | cordis-runtime/src/service_registry.rs:101-107 | the entry is there with its scope, and the cache is stale |
| ServiceRegistry.ServiceRegistry.Remove | cordis-runtime/src/service_registry.rs:108-115 | the entry is gone and returned; the cache is stale only if there was one |
| ServiceRegistry.ServiceRegistry.FindVisible | cordis-runtime/src/service_registry.rs:212-217 | the location of the walk that looks at each entry on the way at an instant of its own, while others change selectors |
| ServiceRegistry.ServiceRegistry.LookUp | cordis-runtime/src/service_registry.rs:256-279 | a hit or a miss as the cached entry, its epoch, owner and visibility at its own look say |
| ServiceRegistry.ServiceRegistry.PopOldest | cordis-runtime/src/service_registry.rs:230-234 | one eviction |
| ServiceRegistry.ServiceRegistry.Remember | cordis-runtime/src/service_registry.rs:226-247 | room is made and the answer entered, with the bookkeeping kept |
| ServiceRegistry.ServiceRegistry.Resolve | cordis-runtime/src/service_registry.rs:196-254 | a hit answers from the cache, a miss from the walk, look by look, which it remembers; a located entry is looked at once more |
| ServiceRegistry.WalkAtSaw | cordis-runtime/src/service_registry.rs:212-217 | the walk stops at an entry that was visible in its last look, and has seen every other entry before it invisible in some look |
| ServiceRegistry.ServiceRegistry.WithdrawAll | cordis-runtime/src/runtime/disposal.rs:272-291 | the listed services of an owner leave, the last first, exactly those it owns in the one scope given |
| ServiceRegistry.ServiceRegistry.PrepareRevision | cordis-runtime/src/service_registry.rs:116-150 | ok exactly if every symbol is staged by the new owner and free or the old owner's at the target |
| ServiceRegistry.ServiceRegistry.TakeStaged | cordis-runtime/src/service_registry.rs:176-188 | the listed entries are taken out up to the first symbol that is listed again; one is missing if and only if there is such a symbol |
| ServiceRegistry.ServiceRegistry.Place | cordis-runtime/src/service_registry.rs:189-192 | every entry taken is at the target |
| ServiceRegistry.ServiceRegistry.CommitRevisionAndPublish | cordis-runtime/src/service_registry.rs:152-195 | refused with nothing changed, exactly when the entries changed or the gate cannot be switched; otherwise switched, and moved if no symbol is listed twice; if one is, a panic with the entries before its second mention gone |
| Resolution.NextInv | cordis-runtime/src/service_registry.rs:196-312 | every insertion, removal, reload, resolution, hiding and bump keeps the cache truthful, with selectors changing from look to look; a publication makes no claim until its bump |
| Resolution.ResolutionRefinesWalk | cordis-runtime/src/service_registry.rs:196-254 | in every run, with gates hidden between any two looks, a resolution answers what the plain walk finds at its start if and only if it is a hit, that walk finds nothing, or what it finds is visible at the last look; an answer that is no hit is what the plain walk finds at the last look |
| Resolution.HiddenBeforeLastLook | cordis-runtime/src/service_registry.rs:248-254 | a run in which the inner provider is hidden between the look that locates it and the last look and the answer is nothing, though the outer one is visible throughout |
| Resolution.HitRefinesWalk | cordis-runtime/src/service_registry.rs:203-208 | in every run a hit in the read section is what the plain walk finds |
| Resolution.CacheBookkeeping | cordis-runtime/src/service_registry.rs:229-247 | in every run the cache is within its bound, its queue lists exactly what is cached, once, and all entries are of the current epoch |
| Resolution.FirstInFirstOut | cordis-runtime/src/service_registry.rs:229-247 | in every run a key leaves the cache by itself only for a new one and when the cache is full; it leaves alone, and had entered before every other key cached |
| Resolution.ShowWithoutBump | cordis-runtime/src/service_registry.rs:256-279 | a run in which a gate becomes visible without a bump and a remembered absence contradicts the walk |
| Sequences.WithoutCounts | cordis-runtime/src/dependency_graph.rs:66-69 | all occurrences of one provider go, all others stay |
| Sequences.DistinctOfSet | cordis-runtime/src/dependency_graph.rs:44-48 | as many different symbols as symbols means none is listed twice |
| DependencyGraph.DependencyGraph.AddProvider | cordis-runtime/src/dependency_graph.rs:18-25 | the provider is appended to its list |
| DependencyGraph.DependencyGraph.RemoveProvider | cordis-runtime/src/dependency_graph.rs:31-35 | the provider is off that list and no other list changes |
| DependencyGraph.DependencyGraph.CheckMove | cordis-runtime/src/dependency_graph.rs:43-65 | ok exactly if symbols are distinct and the provider is listed once at the source, not at the target and in no other scope |
| DependencyGraph.DependencyGraph.MoveProviders | cordis-runtime/src/dependency_graph.rs:36-73 | exactly then every list is as the move leaves it, otherwise none changes |
| DependencyGraph.ProvidersRollbackSucceeds | cordis-runtime/src/runtime/fiber.rs:9-25 | a move can be taken back, at once or after anything that does not concern the provider |
| DependencyGraph.ProvidersRollbackRestores | cordis-runtime/src/runtime/fiber.rs:9-25 | taking it back gives every list its providers again |
| DependencyGraph.Search.Enter | cordis-runtime/src/dependency_graph.rs:140-144 | a node is put on the path, visiting and visited |
| DependencyGraph.Search.Leave | cordis-runtime/src/dependency_graph.rs:150-151 | a node leaves the path finished, after all it depends on |
| DependencyGraph.Search.Visit | cordis-runtime/src/dependency_graph.rs:127-153 | a visit finishes its node and everything below it and restores the path, or reports a path along the edges that has met itself |
| DependencyGraph.ValidateCycles | cordis-runtime/src/dependency_graph.rs:124-160 | ok if and only if the edges are acyclic; an error is a path along the edges whose last node occurs earlier |
| Sequences.SetOfDistinct | cordis-runtime/src/dependency_graph.rs:44-48 | and that none is listed twice means as many |
| DependencyGraph.ReturnIsCycle | cordis-runtime/src/dependency_graph.rs:134-139 | a path that met itself contains a cycle |
| DependencyGraph.OrderedIsAcyclic | cordis-runtime/src/dependency_graph.rs:154-160 | nodes finished after everything they depend on are on no cycle |
| Scopes.PathClimbs | cordis-runtime/src/scope_registry.rs:57-67 | an ancestry is the chain of parents up to a scope without one, as long as the scope is deep |
| Scopes.PathsMirror | cordis-runtime/src/scope_registry.rs:57-86 | the two ancestry queries see one path from its two ends; requiring activity succeeds exactly if all of it is active |
| Scopes.ScopeRegistry.constructor | cordis-runtime/src/scope_registry.rs:24-39 | the root and nothing else |
| Scopes.ScopeRegistry.Ancestry | cordis-runtime/src/scope_registry.rs:57-67 | leaf to root, or not found; the loop ends |
| Scopes.ScopeRegistry.AncestryRootToLeaf | cordis-runtime/src/scope_registry.rs:68-86 | root to leaf, or the first scope from the leaf that is missing or not active |
| Scopes.ScopeRegistry.DepthBelow | cordis-runtime/src/runtime/scope.rs:25-32 | one more than the parent's depth, with missing records ending the count |
| Scopes.ScopeRegistry.Insert | cordis-runtime/src/runtime/scope.rs:43-58 | a new scope under its parent, listed last |
| Scopes.ScopeRegistry.CreateScope | cordis-runtime/src/runtime/scope.rs:11-59 | collection at the quota, the checks in their order, and the new scope |
| Scopes.ScopeRegistry.CreateChild | cordis-runtime/src/context.rs:787-838 | collection at the quota, then the same conditions in another order of errors |
| Scopes.ScopeRegistry.Reparent | cordis-runtime/src/runtime/fiber.rs:98-100 | exactly the listed scopes change parent |
| Scopes.ScopeRegistry.CommitLocked | cordis-runtime/src/runtime/fiber.rs:69-102 | moved exactly if the topology is as validated, else untouched |
| Scopes.ScopeRegistry.RollbackLocked | cordis-runtime/src/runtime/fiber.rs:104-137 | moved back exactly if the topology is as committed, else untouched |
| Scopes.ScopeRegistry.CollectGarbage | cordis-runtime/src/runtime/snapshot.rs:284-304 | disposed fibers leave the lists and exactly the disposed, childless, empty scopes other than the root are reclaimed |
| Scopes.WithoutFibers | cordis-runtime/src/runtime/snapshot.rs:288-291 | exactly the given fibers leave a list, every other stays as often as it was |
| Scopes.Minus | cordis-runtime/src/runtime/fiber.rs:94 | exactly the given scopes leave a list |
| Scopes.ScopesRollbackSucceeds | cordis-runtime/src/runtime/fiber.rs:104-124 | right after a commit the rollback's check passes |
| Scopes.ScopesRollbackRestores | cordis-runtime/src/runtime/fiber.rs:128-135 | and every record is restored |
| Scopes.CommitAllowedExactly | cordis-runtime/src/runtime/fiber.rs:69-137 | a move is allowed if and only if, between two scopes that are there and apart, the rollback would be allowed after it and would restore every record |
| Scopes.RollbackAllowedExactly | cordis-runtime/src/runtime/fiber.rs:69-137 | and a rollback, of two different fibers, if and only if the move would be allowed after it and would restore every record |
| Scopes.SweptExactly | cordis-runtime/src/runtime/snapshot.rs:284-304 | a sweep takes exactly the scopes other than the root that are disposed, childless and without fibers but those that are gone, and takes nothing off the others but these fibers |
| ScopeDisposal.NextInv | cordis-runtime/src/runtime/scope.rs:11-337 | creation, reload and its undoing, disposal bodies, finalization and reclamation keep tree, disposals and outcomes consistent |
| ScopeDisposal.TreeHolds | cordis-runtime/src/scope_registry.rs:57-86 | in every reachable state a scope that is not disposed climbs, through scopes that are not disposed, to the root; its parent lists it once; it is within the depth limit |
| ScopeDisposal.DisposedOnlyBelowDisposed | cordis-runtime/src/runtime/scope.rs:168-337 | in every run a scope is disposed or reclaimed only when everything below it is, by the last parent each scope had |
| ScopeDisposal.TerminatedBlocksAncestors | cordis-runtime/src/runtime/scope.rs:190-206 | a terminated scope stays terminated and nothing above it is ever disposed |
| ScopeDisposal.LiveChildTerminatesParent | cordis-runtime/src/runtime/scope.rs:242-337 | a disposal that ends with a scope still below ends in termination, published as incomplete |
| ScopeDisposal.OutcomeIsTruth | cordis-runtime/src/runtime/scope.rs:296-325 | a published outcome is final, and what it says of the scope's state stays true; which outcome is published is in the next row |
| ScopeDisposal.TerminatedExactly | cordis-runtime/src/runtime/scope.rs:168-325 | in every run a disposal ends Terminated, and publishes Incomplete, if and only if it died, a fiber was not committed, or a child was at its visit missing, or observed incomplete, or with issues and not disposed; otherwise it ends Disposed, and publishes Clean if and only if nothing was ever reported to it, and WithIssues if and only if something was |
| ScopeDisposal.AwaitedIsUnderWay | cordis-runtime/src/runtime/scope.rs:184-206 | in every run the child a body waits for is younger than its scope, and is being disposed of or has its outcome published |
| ScopeDisposal.SomeoneGoesOn | cordis-runtime/src/runtime/scope.rs:168-240 | in every run, while anything is being disposed of, one of the bodies can take its next step: they never wait in a circle, whatever reloads have moved |
| ScopeDisposal.ReclaimedChildTerminatesParent | cordis-runtime/src/runtime/scope.rs:190-206 | a run in which a child disposed cleanly and reclaimed before the parent's body looks for it makes the parent end Terminated, alone of all scopes |
| ScopeDisposal.OnlyMovedOutlive | cordis-runtime/src/runtime/fiber.rs:93-100 | over every descendant a scope ever had: whatever was once below a scope and lives on after its end was taken away from there by a reload |
| ScopeDisposal.MovedChildOutlivesStaging | cordis-runtime/src/runtime/fiber.rs:93-100 | a run in which a scope outlives, by such a move, the staging scope it was below |
| Invocation.SelectedIsExact | cordis-runtime/src/invocation.rs:312-321 | the selection contains each visible middleware of the key on the way, as often as it is registered, and nothing else |
| Invocation.InsertKeepsSorted | cordis-runtime/src/invocation.rs:322 | order by depth, then by registration |
| CapabilityGate.VisibilityCache.Sees | cordis-runtime/src/gate.rs:284-293 | a selector is looked at once, as it is at that instant, and read the same from then on, while others change it |
| Invocation.InvocationRegistry.FindIn | cordis-runtime/src/invocation.rs:297-308 | the first serving handler of one scope as the cache sees it, each looked at in turn, or the proof that there is none |
| Invocation.InvocationRegistry.FindHandler | cordis-runtime/src/invocation.rs:293-311 | the handler of the deepest scope that has a visible one, by the first looks |
| Invocation.InvocationRegistry.FindMiddleware | cordis-runtime/src/invocation.rs:312-322 | the selected middleware, sorted, by the first looks; only what is on the way is looked at |
| Invocation.InvocationRegistry.AcquireAll | cordis-runtime/src/invocation.rs:323-340 | a lease for every gate exactly if each accepts when asked, otherwise one was closed and none is left |
| Invocation.InvocationRegistry.TryOnce | cordis-runtime/src/invocation.rs:291-352 | one attempt while gates change: the reading under the first looks, then leases one by one |
| Invocation.InvocationRegistry.TakeSnapshot | cordis-runtime/src/invocation.rs:285-355 | two attempts: a snapshot with exactly its leases, or an error with none; the generation has changed only if both were refused a lease |
| Invocation.FoundIsDeepest | cordis-runtime/src/invocation.rs:293-311 | what is found by looking no further than needed is the deepest handler under the map of first looks |
| Invocation.OneGenerationPerPlugin | cordis-runtime/src/gate.rs:284-293 | entries of a snapshot that share a selector are of one generation, which was the live one at an instant of the attempt |
| Invocation.AdmittedTogether | cordis-runtime/src/invocation.rs:323-340 | all executions of a snapshot accepted at one instant, and each already when it was seen to be live |
| Invocation.NoMiddlewareMissing | cordis-runtime/src/invocation.rs:312-322 | a snapshot holds a middleware if and only if it is registered for the key on the way and was the live generation at its first look |
| Invocation.OuterComesFirst | cordis-runtime/src/invocation.rs:312-322 | of two middlewares of a snapshot the earlier one is registered further up the path, or in the same scope and earlier |
| Invocation.InvocationRegistry.ValidateRevision | cordis-runtime/src/invocation.rs:241-262 | ok exactly if every staged handler exists and meets no other visible or staged one at the target |
| Invocation.InvocationRegistry.CommitRevision | cordis-runtime/src/invocation.rs:263-284 | after the loops every listed entry is registered at the target, no other has moved, and nothing but scopes has changed |
| Invocation.MoveBack | cordis-runtime/src/runtime/fiber.rs:585-614 | moving staged entries and moving them back changes nothing |
| Invocation.ReloadKeepsUnique | cordis-runtime/src/invocation.rs:241-284 | with validation and switch in one step, a reload keeps the visible handler of a scope and key unique |
| Invocation.RevisionOkExactly | cordis-runtime/src/invocation.rs:241-262 | the validation passes if and only if every staged handler exists and moving them keeps the visible handlers unique: it refuses nothing that would do no harm |
| Reload.Runtime.Prepare | cordis-runtime/src/runtime/fiber.rs:475-572 | ok exactly if fibers, gates, handlers, services and scopes are as a reload needs them; otherwise the error is that of the first check, in their order, that objects |
| Reload.PreparedExactly | cordis-runtime/src/runtime/fiber.rs:475-572 | no check objects if and only if the runtime is running and records, gates, handlers, services and scopes are as needed |
| Reload.Runtime.MoveTopology | cordis-runtime/src/runtime/fiber.rs:573-584 | providers and scopes move both, or neither with nothing reported by the undoing |
| Reload.Runtime.MoveEntriesAndPublish | cordis-runtime/src/runtime/fiber.rs:585-614 | invocation entries, services and generation move together, or not at all, but for the panic |
| Reload.Runtime.UndoProviders | cordis-runtime/src/runtime/fiber.rs:9-25 | the undoing succeeds and restores the lists |
| Reload.Runtime.UndoScopes | cordis-runtime/src/runtime/fiber.rs:104-137 | the undoing succeeds and restores every record |
| Reload.Runtime.UndoTopology | cordis-runtime/src/runtime/fiber.rs:615-622 | the undoing of both succeeds and restores both |
| Reload.Runtime.Apply | cordis-runtime/src/runtime/fiber.rs:567-646 | past the checks: ok exactly under its condition, and then the staged record, field by field, is an adopted one and no other record has changed, and the barrier it held has been released once, with true; each refusal with its exact cause and an undoing that reports nothing; or the panic |
| Reload.Runtime.CommitStagedRevision | cordis-runtime/src/runtime/fiber.rs:475-646 | it commits exactly under a condition on the state before, and then everything staged is at the target, the selector names the new generation, and the staged record alone, field by field, is an adopted one whose barrier has been released once; otherwise nothing but the order of lists has changed, and the error has its exact cause; or it panics, exactly if all holds and a service is listed twice |
| Reload.ScopesOfCommit | cordis-runtime/src/runtime/fiber.rs:93-100 | after the scope move the staged fiber is listed once, at the target, and so is every moved child |
| Reload.ServicesOfCommit | cordis-runtime/src/service_registry.rs:176-193 | after the service move every listed symbol is at the target with the staged entry and gone from the staging scope |
| Reload.NothingLeftInStaging | cordis-runtime/src/runtime/fiber.rs:632-646 | after a commit nothing of the staged plugin is left in the staging scope in any registry, the old generation is hidden and draining, and of all records the staged one alone has changed, into an adopted one |
| Reload.TargetResolvesToStaged | cordis-runtime/src/runtime/fiber.rs:603-635 | after a commit a walk from the target finds the staged plugin's service |
| ReloadProtocol.NextInv | cordis-runtime/src/runtime/fiber.rs:475-646 | every section of the transaction, every section of an operation of the staged plugin's contexts, with the check and the insertion of a service apart, and anything others do keeps: records read stay true, what is moved can be moved back, nothing is shown before it is in place |
| ReloadRefinement.Refines | cordis-runtime/src/runtime/fiber.rs:475-646 | section by section among all others, the transaction is one swap at the exchange, then the fencing of the old generation, and otherwise a change of order, but for the panic, which leaves the record not adopted and services nowhere; what others do means the same as without it |
| ReloadRefinement.ExchangeMeans | cordis-runtime/src/service_registry.rs:172-176 | at the exchange all that the swap asks for holds, and the swap is complete |
| ReloadRefinement.OthersMean | cordis-runtime/src/runtime/fiber.rs:573-622 | what others do while the transaction is under way is a move they may make where it is not, and the same one: before and after it the meant registries are the real ones but for the staged record, the scope of its entries and its place among providers, and nothing changes under a held lock |
| ReloadRefinement.ReadsAsMeant | cordis-runtime/src/invocation.rs:285-355 | an invocation that does not see the staged generation reads handlers and middleware as if nothing had been moved |
| ReloadRefinement.OthersSeeMeant | cordis-runtime/src/runtime/fiber.rs:573-646 | whoever gets at services, scopes or other plugins' providers finds them as if the transaction were one step |
| ReloadRefinement.ShownWhenInPlace | cordis-runtime/src/runtime/fiber.rs:585-635 | the staged generation is not visible before its scopes, providers and entries are at the target, nor are its services anywhere else once their lock is free |
| ReloadRefinement.ServicesThere | cordis-runtime/src/service_registry.rs:176-193 | right after their section every listed service is at the target in the staged plugin's name, and none of its services is anywhere else |
| ReloadRefinement.NoGap | cordis-runtime/src/runtime/fiber.rs:585-635 | a key that both generations serve is served from the target at every instant unless the old gate is closed |
| ReloadRefinement.AllOrNothing | cordis-runtime/src/runtime/fiber.rs:475-646 | in every run the transaction swaps at most once; at rest it has ended well or panicked if and only if it has swapped, and then it has ended well if and only if no service is listed twice; it fails with nothing reported by any undoing |
| ReloadRefinement.FailsExactly | cordis-runtime/src/runtime/fiber.rs:475-622 | in every run a transaction that rests has failed with an error if and only if one of its steps met with the cause of that error; what it met with after it had moved something comes wrapped, with nothing reported by the undoing |
| ReloadRefinement.BarrierReleasedOnce | cordis-runtime/src/runtime/fiber.rs:635-646 | in every run the barrier of the staged record is released exactly once, with true, when the transaction ends well, and no other is ever released |
| ReloadRefinement.AdoptedAtEnd | cordis-runtime/src/runtime/fiber.rs:632-646 | in every run in which the transaction ends well, the staged record as it was read becomes, field by field, that of an adopted plugin, and no other record changes |
| ReloadRefinement.FailureIsInvisible | cordis-runtime/src/runtime/fiber.rs:573-622 | in a run in which it failed, each of its steps changed nothing but the order of lists, and each move of others is the same change with the transaction as without it |
| ReloadRefinement.SwapIsResolutionStep | cordis-runtime/src/service_registry.rs:152-195 | the swap is the commit step of the runs of resolutions |
| ReloadRefinement.SwapIsDisposalStep | cordis-runtime/src/runtime/fiber.rs:69-102 | and the reload step of the runs of disposals, up to the order of lists |
| StagingLeftovers.LeftInStagingExactly | cordis-runtime/src/runtime/fiber.rs:632-646 | after the transaction nothing of the plugin is in the staging scope, and later there is something if and only if an operation still in that scope registers or inserts |
| StagingLeftovers.LateWasAdmittedBefore | cordis-runtime/src/context.rs:65-116 | such an operation had looked at the record before the transaction took it |
| StagingLeftovers.StaleScopeRace | cordis-runtime/src/context.rs:481-506 | a run in which one does |
| StagingLeftovers.WhoIsInsideCanLeave | cordis-runtime/src/context.rs:179-278 | from every state of every run after the transaction, an operation in the staging scope, or admitted to it, can leave something there as long as record and gate are open |
| StagingLeftovers.NobodyInsideNothingLeft | cordis-runtime/src/context.rs:179-278 | if no operation is in the staging scope when the transaction takes the record, nothing is ever left there |
| StagingLeftovers.WithdrawalMissesExactly | cordis-runtime/src/runtime/disposal.rs:272-291 | in every run, a withdrawal in the adopted record's scope would leave a service of the plugin if and only if one is registered in the staging scope |
| StagingLeftovers.LateServiceStays | cordis-runtime/src/runtime/disposal.rs:272-291 | a run in which a service registered late in the staging scope is listed and would not be withdrawn |
| ReloadRuns.Undisturbed | cordis-runtime/src/runtime/fiber.rs:475-646 | from any state of any run the transaction can go through if its conditions hold there and no service is listed twice |
| RepeatedServices.NothingMissingAtCommit | cordis-runtime/src/service_registry.rs:176-188 | in every run each listed service can be moved when the services are, and unless somebody has taken one away before, none is listed twice |
| RepeatedServices.PanicsOnlyIfTaken | cordis-runtime/src/context.rs:265-278 | in every run the transaction panics only if somebody has overwritten or withdrawn a service of the staged plugin before |
| RepeatedServices.SecondRegistrationPanics | cordis-runtime/src/service_registry.rs:177-188 | a run in which another provider inserts over the staged plugin's service, withdraws it, the plugin registers it again, and the reload ends in a panic: the new generation shown, the old one fenced, the service nowhere |
| FiberLifecycle.GatesFollowProtocol | cordis-runtime/src/gate.rs:145-281 | every gate moves only by the steps of the gate protocol |
| FiberLifecycle.LeaseMeansCurrent | cordis-runtime/src/context.rs:65-116 | a lease on a generation keeps it current, not drained, and not cleaned up |
| FiberLifecycle.NextInv | cordis-runtime/src/runtime/disposal.rs:67-472 | operations, dispatches, activations, reloads and disposal keep gates, phases and lists consistent; in which state a disposal leaves the fiber is in CompletesAsAsked |
| FiberLifecycle.GenerationFence | cordis-runtime/src/context.rs:65-116 | while an operation holds its lease the instance is of the generation its context was made for, and all it owns was registered by that generation |
| FiberLifecycle.NeverAdmittedAgain | cordis-runtime/src/runtime/fiber.rs:764-772 | once a generation drains nobody is admitted through its contexts, for the rest of the run, restarts included |
| FiberLifecycle.FencedFrom | cordis-runtime/src/runtime/disposal.rs:86-105 | a generation starts to drain when its plugin is replaced and with the first request for disposal, in whatever state short of disposed that finds the instance |
| FiberLifecycle.InsideWasAdmitted | cordis-runtime/src/context.rs:65-191 | who is about to register came in when the instance was of its context's generation and might register |
| FiberLifecycle.OperationAlone | cordis-runtime/src/context.rs:65-191 | an operation through a current context, left alone, registers exactly if the instance may register, is not sealed and the registries do not refuse; it leaves no lease behind and changes nothing else |
| FiberLifecycle.ActivationAlone | cordis-runtime/src/runtime/fiber.rs:750-877 | an activation, left alone, makes the instance active and open and changes nothing else; after a complete disposal it begins a generation of its own that accepts and owns nothing |
| FiberLifecycle.FailureAlone | cordis-runtime/src/runtime/fiber.rs:940-953 | an activation that fails leaves the instance failed and sealed |
| FiberLifecycle.AdoptedRegisters | cordis-runtime/src/runtime/fiber.rs:635-643 | the record of an adopted plugin is open: its next operation, left alone, registers |
| FiberLifecycle.StatesFollowTransitions | cordis-runtime/src/runtime/fiber.rs:1018-1031 | the state changes only along the transitions, except that a staged activation writes Active over whatever is there |
| FiberLifecycle.DrainBeforeCleanup | cordis-runtime/src/runtime/disposal.rs:218-320 | nothing is cleaned up while any lease on the instance's generations is live |
| FiberLifecycle.NothingAppendedAfterDrain | cordis-runtime/src/context.rs:179-191 | after the drain nothing is registered any more |
| FiberLifecycle.CompleteIsClean | cordis-runtime/src/runtime/disposal.rs:242-320 | at Complete nothing is owned, and all the generation registered was taken off its list exactly once, the last registered first |
| FiberLifecycle.EarlierKindsAreGone | cordis-runtime/src/runtime/disposal.rs:242-320 | child scopes, handlers, services and effects go in that order |
| FiberLifecycle.EffectsLast | cordis-runtime/src/runtime/disposal.rs:242-320 | no handler goes while a child scope is left, no service while anything reaches the plugin, no effect while anything else is left |
| FiberLifecycle.CleanedAtMostOnce | cordis-runtime/src/runtime/disposal.rs:182-351 | in every run, whether disposals complete, time out or die, each resource is cleaned up at most once and only after its generation drained |
| FiberLifecycle.OverwrittenTerminates | cordis-runtime/src/runtime/fiber.rs:840-845 | a disposal over whose state a staged activation has written Active ends Terminated and in no other way |
| FiberLifecycle.AskedExactly | cordis-runtime/src/runtime/disposal.rs:83-85 | in every run a fiber is to wait for its dependencies unless some request since its last start asked for permanent disposal, and its drain waits without a limit if and only if some request asked for that |
| FiberLifecycle.CompletesAsAsked | cordis-runtime/src/runtime/disposal.rs:319-351 | in every run a disposal that completes has read once what to become; the fiber is Disposed if and only if a request for permanent disposal of that generation came before that, and WaitingDependencies otherwise |
| FiberLifecycle.DisposedForGood | cordis-runtime/src/runtime/disposal.rs:319-327 | a fiber that is Disposed stays so: it is never started again in the run |
| FiberLifecycle.TerminatedExactly | cordis-runtime/src/runtime/disposal.rs:182-472 | in every run a disposal ends Terminated if and only if its body died, it gave up a drain that no request had asked it to wait for without limit, its report says so, or its state was written over; otherwise it is complete |
| FiberLifecycle.LateRequestIsLost | cordis-runtime/src/runtime/disposal.rs:319-327 | a run in which a permanent disposal is asked for after the body has read what to become, and the fiber is started again |
| FiberLifecycle.CleanupShrinks | cordis-runtime/src/runtime/disposal.rs:242-320 | every cleanup step leaves less to do and no other step more |
| FiberLifecycle.CleanupCanGoOn | cordis-runtime/src/runtime/disposal.rs:242-320 | and some cleanup step can always be taken until there is nothing left |

## Left out

- Tokio, process spawning, pipes, tracing, timers and clocks: a timeout is a step that may happen
  whenever something is waited for, and the actors' reads and writes work on whole octet sequences.
- User code: handlers, middleware, effects and `start` are arbitrary outcomes.
- Memory orderings weaker than sequential consistency.
- Task and worker counters, the shutdown coordinator, plugin counts, health reports, configuration
  checks, error texts and the interner of service keys: a service key is its symbol here, and request
  payloads carry no more than the codec needs.
- Event registration by `activate`, and the waterfall dispatch: the former has no caller, the latter
  loads its list as the other dispatches do.
- The writer's refresh of an invocation's remaining time: the number sent is the message's own.
- The runtime's garbage collection request and the lifecycle mutexes of other fibers.
- Reload.Runtime.CommitStagedRevision, like the other members of Reload, is the transaction as one thread
  runs it; what other threads do between its sections is in ReloadProtocol and ReloadRefinement.
- ReloadProtocol.NextInv: one transaction among arbitrary others.  The replaced plugin is held by its
  lifecycle lock, so it is not started again meanwhile.  After adoption a further reload of the adopted
  plugin is not followed.
- RepeatedServices.NothingMissingAtCommit: that no service can be missing holds only as long as nobody
  takes a service away from the staged plugin, because registrations check and insert in two sections.
- ReloadRefinement.OthersSeeMeant: of the provider lists it leaves out the staged plugin's own place, which
  a search for cycles by a third plugin's installation may see moved before the exchange.
- Resolution.ResolutionRefinesWalk: between a publication, or a change of ancestry, and the bump that
  follows it, resolutions are followed but nothing is promised of them.
- Invocation.InvocationRegistry.TakeSnapshot: the chain of continuations that runs the snapshot is not
  modelled.
- Invocation.ReloadKeepsUnique: concurrent activations can register between validation and
  publication, so it takes the two as one step.
- FiberLifecycle.NextInv: one instance; services and handlers are resources on its lists, the registries
  that hold them are other modules.
- ScopeDisposal.NextInv: the disposal of the fibers of a scope is an arbitrary outcome, and a disposed
  scope may hold a fiber that waits for its dependencies and is started again later.
