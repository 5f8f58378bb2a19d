# Verified model of ruststream-amqp

This project models the parts of the `ruststream-amqp` crate that are hard to get right and proves
what they promise, in Dafny 4.11. `dafny verify dfyconfig.toml` checks all of it.

## What is modelled

**The settlement line** (`SettleLine`, `SettleLineWakeup`, `SettleLineAnswers`, `SettleLineEnds`,
`SettleLineObject`). Any number of concurrent settlements share at most `credit` reusable answer slots
over a lock-free queue, two atomic counters and a wake-up object. Each settlement is a program counter;
each atomic operation (pop, load, weak compare-exchange, push, fetch-and-add, one operation of the wake-up
object) is a step; a schedule is any sequence of steps, cancellations, answers and a pump stop. The wake-up
object keeps its waiters in arrival order and at most one permit; a notified waiter that goes away passes
its notification on. A look at the slots is two steps, so it can miss a slot pushed in between.

**The in-process broker.** `Router` says what each registry operation does to the registry and the
channels, and `AddressRouters` holds the registry as the object it is, every operation in place and
proved to do just that. `RouterTurns` is about the rotation, `RouterPrediction` about the harness's
prediction. `BusWorld` adds the consumers and what they hold, and is about whole runs: `BusConservation`
and `BusExactlyOnce` account for every delivery, `BusFifo` refines an address to one queue, `BusHandBack`
says what goes back where and in which order. `BusDetach`,
`BusDetachRuns` and `BusDetachOnce` take a detach apart into its two halves and account for every delivery
again, with anything in between; `BusDetachLosses` has the runs that lose or double one. `BusSubscribers`
reads off the events of a run who is attached, who holds what and what a topic subscription gets. `InFlight`
is the harness's count at the grain of its own atomic steps, `InFlightCalls` what whole calls do to it.
`Transactions` interleaves a shared transactional handle, owned transactions, direct publishes and a
shutdown; `TransactionRuns` says what each call comes to whatever happens between its steps. `InProcess`,
`TransactionBuffers` and `Requests` are the objects and loops around the registry.

**The pump and shutdown** (`Pump`, `PumpService`, `PumpProgress`, `PumpTask`, `Shutdown`, `Connection`). One
pump runs per subscription. A `select` looks at its branches one after another, so every look is a step and
the world can move in between. `PumpService` is what subscriber and handlers see of a run, `PumpProgress`
what comes about in finitely many turns. `Shutdown` runs any number of subscribes, each with its pump,
against one shutdown.

**The message mapping** (`Message`, `MessageText`, `Utf8`). Headers to the sections of an AMQP 1.0
message and back (OASIS AMQP 1.0 Part 3, sections 3.2.4, 3.2.5 and 3.2.11 to 3.2.14), typed identifiers, and
the context of a reply.

**Two loops.** `JsonBody` pads a benchmark body to an exact size; `StreamAnswer` parses the chat answer as
chunks arrive.

## How to read it

A run is a sequence of events; an event that is not enabled changes nothing, so a statement about every
run covers every interleaving. History fields (what was published, received, sent, committed) are read by
no operation. Where the source updates an object in place there is a class: its methods are proved against
the functions and keep its `Valid()`, which is the invariant of every run, and its loops end in what they
promise their caller. The other properties are proved about the functions.

## Where the code does less than it seems to

- The rotation of `hand_to_one` does not always go on "until one takes it" (comment at
  `router.rs:340-343`): where the turn counter wraps inside a hand-over and not between two rounds, a
  consumer is asked twice and another never. `RouterTurns.RotationAsksEveryone` and
  `RouterTurns.RotationAsksNobodyTwice` give the exact condition,
  `RouterTurns.WrapStoresWhatAConsumerWouldTake` a delivery that is stored although a consumer would take
  it. It takes 2^64 hand-overs on one address to get there.
- A detach does not always take back what the subscription held (comment at `deliveries.rs:47-49`): the
  receiver closes before the registry entry goes, and a `modified` settlement in between reports success
  into a refused send. `BusDetach.ReturnKeptExactly` says exactly when a return is kept, and
  `BusDetachOnce.DeliveryConservedInHalves` that over whole runs nothing else is lost to it, and
  `BusDetachLosses.ReturnIntoAClosingLinkIsLost` is such a run.
- The stop signal does not end receiving at once: a pump between its look at the signal and its receive
  takes one more delivery (`Pump.AtMostOneMoreReceive`, `Pump.ReceivesAfterStopExactly`, `Pump.StopCanComeAfterTheLook`).
- The context yields the id a reply correlates to unless an application property reuses the header name
  (comment at `context.rs:54`): `Message.ContextKeepsTheId` is the condition.
- A request that goes away without draining its reply channel leaves the in-flight count above what is
  there, by the deliveries the channel held: one dropped before its reply came, and one that the shutdown
  refused after its reply address was attached (`InFlight.ExactWhenQuiet`, `InFlight.DroppedRequestLeaks`,
  `InFlight.RefusedRequestLeaks`).
- `json_body` reaches its size exactly for the sizes that fit; the others trip its assertion, and with
  overflow checks a body of 2^32 fields or more trips its counter (`JsonBody.Build`).

## Model

| member | source | states |
|---|---|---|
| SettleLineWakeup.SlotsConserved | crates/ruststream-amqp/src/settle.rs:154-187 | under every schedule, `made` is the idle plus the held slots and at most the credit, so a push back never fails; both counters stay in range |
| SettleLineWakeup.NoLostWakeup | crates/ruststream-amqp/src/settle.rs:140-196 | under every schedule and cancellation, while a settlement is parked un-notified, free slots never outnumber the wake-ups on their way |
| SettleLineWakeup.ParkedOnlyBehindThePump | crates/ruststream-amqp/src/settle.rs:140-154 | with nothing able to move, a parked settlement means no slot is free or can be made |
| SettleLineWakeup.FreeingKeeps | crates/ruststream-amqp/src/settle.rs:223-242 | releasing a slot, or giving it up, keeps the counts of slots and wake-ups in balance |
| SettleLineAnswers.EveryAnswerIsItsOwn | crates/ruststream-amqp/src/settle.rs:125-137 | every settlement reports the answer the pump gave to its own delivery, or the stopped pump |
| SettleLineAnswers.IdleSlotsAreReady | crates/ruststream-amqp/src/settle.rs:156-170 | every idle slot has its sender available and no two settlements hold one slot |
| SettleLineAnswers.PopTakesTheSlot | crates/ruststream-amqp/src/settle.rs:158-163 | the fresh receiver that stands in for a popped slot is never needed |
| SettleLineAnswers.GivenUpSlotsStayOut | crates/ruststream-amqp/src/settle.rs:235-242 | a slot given up by a cancelled or refused settlement is never idle, held or lent again, however the schedule goes on |
| SettleLineEnds.OpenUntilStopped | crates/ruststream-amqp/src/settle.rs:127-133 | under every schedule the line takes requests exactly until the pump stops |
| SettleLineEnds.SettlementsAreSpawned | crates/ruststream-amqp/src/settle.rs:125-137 | under every schedule each settlement asked for is there |
| SettleLineEnds.AnsweredGivesItsSlotBack | crates/ruststream-amqp/src/settle.rs:223-232 | under every schedule a settlement that has its answer puts its slot at the end of the idle ones for the next, and no slot goes away |
| SettleLineEnds.StoppedPumpAnswersNobody | crates/ruststream-amqp/src/settle.rs:127-136 | a settlement that has not sent its request when the pump stops ends as stopped or cancelled, however the schedule goes on |
| SettleLineEnds.RepliesAreThePumps | crates/ruststream-amqp/src/settle.rs:127-136 | every recorded reply is one the pump gave to that settlement in the schedule |
| SettleLineEnds.ReportsWhatHappened | crates/ruststream-amqp/src/settle.rs:125-137 | read off the schedule: an answer was given to this settlement, a stopped pump dropped its request or had stopped, and cancelled means cancelled |
| SettleLineEnds.CancelledGivesItsSlotUp | crates/ruststream-amqp/src/settle.rs:235-242 | cancelled while it waits for its answer, a settlement frees one place in the count, keeps its slot out of the queue and wakes a waiter if there is one |
| SettleLineEnds.CancelledStopsWaiting | crates/ruststream-amqp/src/settle.rs:140-154 | cancelled while parked, it leaves the waiters and the count of the waiting, and touches no slot |
| SettleLineObject.Shared.Settle | crates/ruststream-amqp/src/settle.rs:125-196 | in place, as a loop over the atomic steps: an uninterrupted settlement reports an outcome if and only if a slot was free: the pump's reply, or the stopped pump, with as many slots free afterwards; without one it ends parked and queued; the line stays valid |
| SettleLineObject.Shared.StopPump | crates/ruststream-amqp/src/settle.rs:127-133 | in place: the line refuses requests from then on, and nothing else changes |
| AddressRouters.AddressRouter.Subscribe | crates/ruststream-amqp/src/in_process/router.rs:105-135 | in place: a queue subscription creates the queue or takes over all it holds, in order; a closed registry refuses |
| AddressRouters.AddressRouter.Termini | crates/ruststream-amqp/src/in_process/router.rs:138-150 | counts the queue and the topic subscriptions of an address |
| AddressRouters.AddressRouter.Recipients | crates/ruststream-amqp/src/in_process/router.rs:154-181 | the marks, in attach order, are those of the prediction |
| AddressRouters.AddressRouter.Unsubscribe | crates/ruststream-amqp/src/in_process/router.rs:186-215 | in place: hands back what was dropped, then what was never read, and removes an empty queue without consumers |
| AddressRouters.AddressRouter.Release | crates/ruststream-amqp/src/in_process/router.rs:219-236 | in place: keeps a dropped delivery on its subscription, or hands it back at once |
| AddressRouters.AddressRouter.Publish | crates/ruststream-amqp/src/in_process/router.rs:241-254 | in place: routes one message, or refuses once closed |
| AddressRouters.AddressRouter.PublishAll | crates/ruststream-amqp/src/in_process/router.rs:258-272 | in place: all messages of a transaction, or none once closed |
| AddressRouters.AddressRouter.Requeue | crates/ruststream-amqp/src/in_process/router.rs:280-298 | in place: back to the subscription that had it, or to another consumer; refuses once closed |
| AddressRouters.AddressRouter.HandToOne | crates/ruststream-amqp/src/in_process/router.rs:344-376 | in place, with its loop over the consumers: offers from the turn on, then the queue |
| AddressRouters.AddressRouter.CopyToTopics | crates/ruststream-amqp/src/in_process/router.rs:333-337 | whatever order the registry is iterated in, each topic subscription gets one copy and nobody else does |
| AddressRouters.AddressRouter.Close | crates/ruststream-amqp/src/in_process/router.rs:307-314 | in place: empties the registry and keeps the log |
| RouterTurns.RotationAsksEveryone | crates/ruststream-amqp/src/in_process/router.rs:363-371 | one hand-over asks every consumer if and only if the counter does not wrap inside it, or wraps between two rounds |
| RouterTurns.HandOverFindsAConsumer | crates/ruststream-amqp/src/in_process/router.rs:363-375 | where it asks everyone, a hand-over asks no consumer twice, the last one asked is the first that takes the delivery and gets it, and it is stored only when all were asked and refused |
| RouterTurns.RotationAsksNobodyTwice | crates/ruststream-amqp/src/in_process/router.rs:366-371 | one hand-over asks no consumer twice if and only if the counter does not wrap inside it, or wraps between two rounds |
| RouterTurns.WrapPassesOverAConsumer | crates/ruststream-amqp/src/in_process/router.rs:366-371 | at a wrap inside a round, the only consumer that would take the delivery is never asked |
| RouterTurns.WrapStoresWhatAConsumerWouldTake | crates/ruststream-amqp/src/in_process/router.rs:366-375 | three consumers before the wrap, where that happens |
| RouterTurns.EveryoneGetsAShare | crates/ruststream-amqp/src/in_process/router.rs:364-368 | of `k` turns among `n` consumers each gets `k / n` rounded down or up |
| RouterTurns.HandOverInTurn | crates/ruststream-amqp/src/in_process/router.rs:363-371 | with open receivers a hand-over goes to the consumer whose turn it is |
| RouterTurns.FairRotation | crates/ruststream-amqp/src/in_process/router.rs:344-376 | before the wrap, `k` hand-overs among unchanged open consumers grow each channel by its share |
| RouterPrediction.PublishReachesThePredicted | crates/ruststream-amqp/src/in_process/router.rs:152-181 | with open receivers a publish adds the message to exactly the channels the prediction marks |
| RouterPrediction.PredictionCounts | crates/ruststream-amqp/src/in_process/router.rs:138-181 | the marks number the topic subscriptions plus one if any queue subscription competes |
| RouterPrediction.RoutesNamesTheReached | crates/ruststream-amqp/src/broker.rs:919-939 | where the app's subscriptions of a name are the attached ones in order, a position is named if and only if the publish reaches it |
| RouterPrediction.RoutesCounts | crates/ruststream-amqp/src/broker.rs:940-955 | where they are not, the answer still names as many as the publish reaches, or all there are |
| RouterPrediction.RoutesInOrder | crates/ruststream-amqp/src/broker.rs:919-955 | the answer ascends and names positions of that name only; in the fallback it is a prefix of them |
| RouterPrediction.AttachedInOrder | crates/ruststream-amqp/src/in_process/router.rs:156-162 | the subscriptions the prediction goes over are exactly those attached to the address, in attach order |
| RouterPrediction.SameNameExactly | crates/ruststream-amqp/src/broker.rs:920-924 | the positions considered are exactly those of that name |
| RouterPrediction.MarkedAscends | crates/ruststream-amqp/src/broker.rs:933-938 | picking the marked positions keeps their order and adds none |
| BusWorld.RunKeeps | crates/ruststream-amqp/src/in_process/router.rs:105-314 | every run keeps the registry's invariant: open receivers, no orphan deliveries, consumers that know their address |
| BusWorld.QueueExistsExactly | crates/ruststream-amqp/src/in_process/router.rs:111-116 | in every run an address has a queue if and only if a queue subscription is attached or the queue is non-empty, and never both |
| BusWorld.HandOverLands | crates/ruststream-amqp/src/in_process/router.rs:344-376 | a hand-over changes one attached consumer's channel, or the queue, or nothing |
| BusWorld.HandAllKeeps | crates/ruststream-amqp/src/in_process/router.rs:197-201 | handing a batch back stores it in order, or spreads it over consumers of that address only |
| BusConservation.StepBalanced | crates/ruststream-amqp/src/in_process/router.rs:105-314 | for every step and every delivery: held afterwards plus left equals held before plus come in |
| BusConservation.HandOverKept | crates/ruststream-amqp/src/in_process/router.rs:344-376 | a hand-over adds just its delivery to just its address, where that keeps it |
| BusConservation.DetachBalanced | crates/ruststream-amqp/src/in_process/deliveries.rs:46-65 | a detach loses only what an at-most-once link, or a closed transport, held unread |
| BusConservation.SettleBalanced | crates/ruststream-amqp/src/in_process/deliveries.rs:137-173 | a settlement takes the delivery out of the hands, and a `modified` one brings it back with one more attempt if anybody takes it |
| BusConservation.DropBalanced | crates/ruststream-amqp/src/in_process/deliveries.rs:176-190 | a dropped delivery stays on the address unless nobody there takes it back |
| BusExactlyOnce.HeldAsPublished | crates/ruststream-amqp/src/in_process/deliveries.rs:137-190 | in every run whatever the address holds it holds once, with payload, headers and reply id as published and the count equal to its `modified` returns |
| BusExactlyOnce.DeliveryConserved | crates/ruststream-amqp/src/in_process/router.rs:186-298 | in every run each accepted delivery is in exactly one of queue, channel, hands and outstanding list, or has left exactly once |
| BusDetach.HandOverLosesNothing | crates/ruststream-amqp/src/in_process/router.rs:369-375 | while links close, a hand-over still loses nothing |
| BusDetach.ReturnKeptExactly | crates/ruststream-amqp/src/in_process/router.rs:280-298 | a successful return keeps the delivery if and only if its subscription's receiver is open, or, that gone, a consumer or a queue is left |
| BusDetachRuns.HalfStepBalanced | crates/ruststream-amqp/src/in_process/deliveries.rs:50-64 | with every detach in its two halves and anything in between, for every step and every delivery: held afterwards plus left equals held before plus come in |
| BusDetachRuns.HalvesConserve | crates/ruststream-amqp/src/in_process/router.rs:186-298 | in every such run whatever came in is held, drained links included, or has left; a return into a closing link only leaves |
| BusDetachRuns.WholeRunsAreHalved | crates/ruststream-amqp/src/in_process/deliveries.rs:50-64 | every run of whole detaches is such a run, each detach's halves side by side |
| BusDetachOnce.HeldAsPublishedInHalves | crates/ruststream-amqp/src/in_process/deliveries.rs:50-65 | in every such run what is held is held in one place, as published, with its returns counted |
| BusDetachOnce.DeliveryConservedInHalves | crates/ruststream-amqp/src/in_process/router.rs:186-298 | in every such run an accepted delivery is in exactly one place or left exactly once; a return into a closing link is one way to leave |
| BusDetachLosses.ReturnIntoAClosingLinkIsLost | crates/ruststream-amqp/src/in_process/deliveries.rs:50-64 | a run: subscribe, publish, receive, receiver closed, successful return, unsubscribe, and the delivery is nowhere |
| BusDetach.DropAfterTheQueueWentIsLost | crates/ruststream-amqp/src/in_process/router.rs:202-213 | the last consumer's detach removes an empty queue, and a drop after it is lost |
| BusDetachLosses.LateDropIsLost | crates/ruststream-amqp/src/in_process/router.rs:202-236 | a run that gets there and ends with the delivery nowhere |
| BusDetach.TopicCopyHandedBackIsASecondDelivery | crates/ruststream-amqp/src/in_process/router.rs:232-234 | a topic copy handed back late joins the queue consumer's channel, which already has the message |
| BusDetachLosses.TopicCopyIsDeliveredTwice | crates/ruststream-amqp/src/in_process/router.rs:219-236 | a run that gets there: one publish, and the queue consumer has it unread twice |
| BusFifo.OneFifo | crates/ruststream-amqp/src/in_process/router.rs:105-215 | with one at-least-once queue subscription at a time, any topic subscriptions, and no queue delivery returned or dropped, received followed by waiting equals accepted, in order, across any detach and re-attach |
| BusFifo.StepMoves | crates/ruststream-amqp/src/in_process/router.rs:105-376 | every step appends the accepted message at the end of the one queue or takes the received one from its front, and no other step moves it, topic subscriptions of the address included |
| BusSubscribers.AttachedExactly | crates/ruststream-amqp/src/in_process/router.rs:105-215 | read off the events of a run: a subscription is in the registry, with its address and routing, exactly from its subscribe on an open transport to its detach or the close |
| BusSubscribers.HandsExactly | crates/ruststream-amqp/src/in_process/deliveries.rs:79-190 | read off the events of a run: a consumer holds a delivery exactly from the receive that took it, the oldest unread one, to its settlement or drop |
| BusHandBack.SettledExactly | crates/ruststream-amqp/src/in_process/deliveries.rs:137-173 | a settlement takes the delivery off its consumer; accepted, rejected or after the close it is gone; `modified` it goes, with one more attempt and otherwise as it was, to the end of the channel it came from, or, that subscription gone, to one consumer or the queue |
| BusHandBack.DroppedExactly | crates/ruststream-amqp/src/in_process/deliveries.rs:176-185 | a dropped delivery stays with its subscription, behind those dropped before; that one gone, it goes as it arrived to one consumer or the queue |
| BusHandBack.DetachStoresInOrder | crates/ruststream-amqp/src/in_process/router.rs:192-213 | the last consumer of an address leaves in its queue what it dropped, then what it never read, in order; with nothing to leave the queue goes |
| BusHandBack.DetachHandsOverInOrder | crates/ruststream-amqp/src/in_process/router.rs:196-201 | where one other consumer is left, it gets them in that order at the end of its channel |
| BusHandBack.TopicGivesNothingBack | crates/ruststream-amqp/src/in_process/router.rs:197-208 | a topic subscription that detaches takes its channel with it and gives nothing back |
| BusSubscribers.TopicGetsEverything | crates/ruststream-amqp/src/in_process/router.rs:332-336 | in every run what an attached topic subscription has read followed by what it has unread is every message published to its address since it subscribed, and what was returned to it, each once, in order |
| InFlight.NeverBelow | crates/ruststream-amqp/src/in_process/router.rs:379-390 | at every atomic step of every run, the transport's shutdown included, the count is at least channel lengths plus live settlements |
| InFlight.ExactWhenQuiet | crates/ruststream-amqp/src/in_process/request.rs:48-79 | with no call in progress it equals that sum if and only if nowhere in the schedule a request let go of its receiver, dropped or refused, with deliveries in its channel |
| InFlight.DroppedRequestLeaks | crates/ruststream-amqp/src/in_process/request.rs:53-79 | a schedule with one such drop, which leaves the count at one with nothing there |
| InFlight.RefusedRequestLeaks | crates/ruststream-amqp/src/in_process/request.rs:47-51 | a schedule in which the transport closes between a request's subscribe and its routing, with the same end |
| InFlight.BusyWhileGoingBack | crates/ruststream-amqp/src/in_process/deliveries.rs:176-190 | it is never zero while a returned or dropped delivery is on its way back |
| InFlightCalls.SendCounts | crates/ruststream-amqp/src/in_process/router.rs:379-390 | a whole send to an open receiver adds one to its channel and one to the count |
| InFlightCalls.RefusedSendCountsNothing | crates/ruststream-amqp/src/in_process/router.rs:382-389 | a send to a closed receiver leaves everything as it was |
| InFlightCalls.ReadKeepsTheCount | crates/ruststream-amqp/src/in_process/deliveries.rs:79-102 | reading a delivery makes a settlement of it and keeps the count |
| InFlightCalls.SettlingReleases | crates/ruststream-amqp/src/in_process/deliveries.rs:137-190 | a settlement that gives nothing back releases its one count |
| InFlightCalls.GoingBackKeepsTheCount | crates/ruststream-amqp/src/in_process/deliveries.rs:176-190 | a delivery that goes back is counted again before its settlement releases its count, and ends in the channel with the count as it was |
| InFlightCalls.DetachReleasesAll | crates/ruststream-amqp/src/in_process/deliveries.rs:50-64 | a detach releases one count for every delivery it drains and takes subscription and channel away |
| InFlightCalls.DoneRequestReleasesAll | crates/ruststream-amqp/src/in_process/request.rs:69-77 | so does a request that is done with its reply channel |
| InFlightCalls.SubscribeAttaches | crates/ruststream-amqp/src/in_process/router.rs:105-135 | a subscribe attaches a new, empty, open channel, or nothing once the transport closed |
| Transactions.LogIsHistory | crates/ruststream-amqp/src/in_process/router.rs:241-338 | in every run each address's log is exactly the recorded direct publishes and committed buffers, in order; what is recorded is what the threads routed, by `TransactionRuns.HistoryIsWhatWasRouted` |
| Transactions.CommitsOnceAndWhole | crates/ruststream-amqp/src/in_process/txn.rs:44-138 | in every run a transaction reaches the registry once if its commit went through and never otherwise, with exactly what was buffered under it |
| Transactions.DischargeIsWholeOrNothing | crates/ruststream-amqp/src/in_process/bus.rs:133-142 | a commit racing the shutdown lands whole or not at all |
| Transactions.OutcomesLast | crates/ruststream-amqp/src/in_process/router.rs:307-314 | committed stays committed, discarded never commits, and after the close every log stays as it is |
| TransactionRuns.LogIsWhatWasRouted | crates/ruststream-amqp/src/in_process/router.rs:241-338 | read off the events: each address's log is exactly what the threads' steps routed to it while the registry was open, the message of each publish and the whole buffer of each discharge |
| TransactionRuns.HistoryIsWhatWasRouted | crates/ruststream-amqp/src/in_process/router.rs:241-272 | the recorded history is that, message by message |
| TransactionRuns.CommittedAsHeld | crates/ruststream-amqp/src/in_process/txn.rs:90-133 | read off the events: a transaction has one commit entry exactly if its discharge reached the open registry, and then with exactly what its publishes put under it |
| TransactionRuns.ShutExactly | crates/ruststream-amqp/src/in_process/bus.rs:43-51 | the flag is up exactly once shutdown raised it, the registry closed exactly once shutdown closed it after that |
| TransactionRuns.DirectPublishArrives | crates/ruststream-amqp/src/in_process/bus.rs:98-104 | a direct publish puts one entry at the end of its address's log and none elsewhere, whatever happens between its steps, unless it is unsendable or the transport closed |
| TransactionRuns.HandlePublishIsHeld | crates/ruststream-amqp/src/in_process/txn.rs:44-51 | a publish on the handle that finds a transaction open adds exactly its message to that transaction and routes nothing |
| TransactionRuns.HandlePublishIsRouted | crates/ruststream-amqp/src/in_process/txn.rs:52-57 | one that finds none open is routed to its address once, unless the registry closed meanwhile |
| TransactionRuns.BeginOpensOne | crates/ruststream-amqp/src/in_process/txn.rs:69-80 | a begin opens an empty transaction, and leaves the open one as it is where there is one |
| TransactionRuns.CommitLandsWhole | crates/ruststream-amqp/src/in_process/txn.rs:90-95 | a commit empties the slot at once and appends its whole buffer to the logs in one step, or nothing where shutdown came first |
| TransactionRuns.OwnedCommitLandsWhole | crates/ruststream-amqp/src/in_process/txn.rs:129-133 | so does the commit of an owned transaction |
| TransactionRuns.AbortEmpties | crates/ruststream-amqp/src/in_process/txn.rs:97-100 | an abort empties the slot, a dropped owned transaction goes, and nothing is routed |
| TransactionRuns.OpenOwnedOpensOne | crates/ruststream-amqp/src/in_process/txn.rs:59-67 | opening an owned transaction adds an empty one of its own, unless the connection closed |
| TransactionRuns.OwnedPostIsHeld | crates/ruststream-amqp/src/in_process/txn.rs:120-127 | a publish on an owned transaction adds exactly its message to it, unless it is unsendable or the connection closed |
| TransactionRuns.ConsumersAreTheBrokers | crates/ruststream-amqp/src/in_process/router.rs:105-298 | what consumers do to the registry between the steps of transactions is what they do to it in the broker's own runs |
| TransactionRuns.DetachesAreTheBrokers | crates/ruststream-amqp/src/in_process/deliveries.rs:46-65 | detaches included |
| TransactionBuffers.TxnBuffer.Publish | crates/ruststream-amqp/src/in_process/txn.rs:44-57 | in place: buffered while a transaction is open, routed at once otherwise, refused after shutdown or unsendable |
| TransactionBuffers.TxnBuffer.Begin | crates/ruststream-amqp/src/in_process/txn.rs:69-80 | in place: opens an empty transaction, or refuses and leaves the open one |
| TransactionBuffers.TxnBuffer.Commit | crates/ruststream-amqp/src/in_process/txn.rs:90-95 | in place: the slot is empty afterwards whatever is reported; the whole buffer is routed if and only if it succeeds |
| TransactionBuffers.TxnBuffer.Abort | crates/ruststream-amqp/src/in_process/txn.rs:97-100 | in place: the slot is empty afterwards and nothing is routed |
| TransactionBuffers.TxnBuffer.OpenOwned | crates/ruststream-amqp/src/in_process/txn.rs:59-65 | an owned transaction has a buffer of its own |
| TransactionBuffers.OwnedBuffer.Publish | crates/ruststream-amqp/src/in_process/txn.rs:120-127 | in place: appends to its own buffer, or refuses |
| TransactionBuffers.OwnedBuffer.Commit | crates/ruststream-amqp/src/in_process/txn.rs:129-133 | routes the whole buffer if and only if it succeeds |
| InProcess.Settlement.Settle | crates/ruststream-amqp/src/in_process/deliveries.rs:137-173 | in place: the three error cases, and a `modified` return with one more attempt and everything else as it arrived |
| InProcess.Settlement.Drop | crates/ruststream-amqp/src/in_process/deliveries.rs:176-190 | in place: gives back what was not settled, once |
| InProcess.BusDeliveries.Next | crates/ruststream-amqp/src/in_process/deliveries.rs:79-102 | takes the head; an at-most-once delivery carries no way back |
| InProcess.BusDeliveries.Drop | crates/ruststream-amqp/src/in_process/deliveries.rs:46-65 | in place, with its drain loop: hands back everything unread in order unless it was settled on sending, releasing one count for each |
| InProcess.UnsubscribeWithout | crates/ruststream-amqp/src/in_process/router.rs:186-215 | whether the detaching link's channel goes before or after unsubscribing makes no difference |
| InProcess.Bus.Close | crates/ruststream-amqp/src/in_process/bus.rs:48-51 | in place: the flag and then the registry are closed |
| InProcess.Bus.EmptyRegistry | crates/ruststream-amqp/src/in_process/bus.rs:48-51 | in place: empties the registry, and only once the flag is up |
| Requests.AwaitReply | crates/ruststream-amqp/src/in_process/request.rs:53-77 | returns the first correlated reply before the deadline, if there is one, and releases the count of every other delivery exactly once |
| Requests.CorrelationsDiffer | crates/ruststream-amqp/src/in_process/bus.rs:148-151 | two requests of a connection share neither correlation id nor reply address |
| Requests.ReplyIsItsOwn | crates/ruststream-amqp/src/in_process/request.rs:53-65 | a late answer to another request never resolves this one |
| Pump.OneItemPerReceive | crates/ruststream-amqp/src/subscriber.rs:219-300 | in every run the channel gets one item for each receive, in order: all but the one at hand, and all but at most the last at exit |
| Pump.OneDispositionEach | crates/ruststream-amqp/src/subscriber.rs:353-378 | in every run each delivery gets at most one disposition, and none if it was settled on sending |
| Pump.UnreadableRejectedOnce | crates/ruststream-amqp/src/subscriber.rs:264-277 | in every run an unreadable at-least-once delivery is rejected once and never yields a handle |
| Pump.AtMostOneMoreReceive | crates/ruststream-amqp/src/subscriber.rs:240-250 | once stop is set, one further delivery at most, and only from between the look at the signal and the receive |
| Pump.ReceivesAfterStopExactly | crates/ruststream-amqp/src/subscriber.rs:240-250 | in every run with stop set a further receive is possible if and only if the pump is at its receive |
| Pump.StopCanComeAfterTheLook | crates/ruststream-amqp/src/subscriber.rs:240-250 | a run that gets there |
| Pump.ReachesTheEnd | crates/ruststream-amqp/src/subscriber.rs:219-351 | once stop is set the pump ends its session within as many turns as its phase, queued commands and live handles weigh; without stop, `Pump.DrainServesEveryone` says when it may end |
| Pump.DrainServesEveryone | crates/ruststream-amqp/src/subscriber.rs:302-318 | in every run, without shutdown the drain is over only when no handle is alive, nobody waits for a settlement and none is queued |
| Pump.DetachesUnlessTheLinkFailed | crates/ruststream-amqp/src/subscriber.rs:280-322 | in every run a session that is about to end or has ended did so after exactly one detach, or after none where the last receive failed with an error that is not about one message |
| PumpService.SignalsAreEvents | crates/ruststream-amqp/src/subscriber.rs:222-251 | the pump sees shutdown and the dropped subscriber exactly once they happened |
| PumpService.SubscriberReadsInOrder | crates/ruststream-amqp/src/subscriber.rs:222-300 | in every run what the subscriber has read is a prefix of one item for each receive; with what the channel holds, never more than its capacity, it is all but the last while the subscriber stays |
| PumpService.HandlesAreLive | crates/ruststream-amqp/src/subscriber.rs:256-277 | in every run an unsettled handle is alive exactly for the readable at-least-once deliveries at hand, in the channel or read, until they are settled or dropped |
| PumpService.HandlersSettle | crates/ruststream-amqp/src/settle.rs:125-133 | in every run exactly who has read a delivery that is still unsettled can settle it: its settlement is then last in line and its caller waits; once the pump is done nothing is queued |
| PumpService.SettlementsInOrder | crates/ruststream-amqp/src/subscriber.rs:222-246 | in every run the settlements handlers asked for are, in order, those applied, the one being applied and those queued: none is lost, doubled or overtaken |
| PumpService.AnswersExactly | crates/ruststream-amqp/src/subscriber.rs:353-378 | in every run a handler still waits for its answer exactly if it asked, did not give up, and no disposition was made of its delivery |
| PumpProgress.LeavesOnceUnsubscribed | crates/ruststream-amqp/src/subscriber.rs:222-251 | once the subscriber is dropped the pump leaves its loop within a bounded number of its turns |
| PumpProgress.AtHandIsSent | crates/ruststream-amqp/src/subscriber.rs:222-300 | with room in the channel the item at hand is sent within a bounded number of turns |
| PumpProgress.ReceivesWhatArrives | crates/ruststream-amqp/src/subscriber.rs:239-249 | with nothing at hand and deliveries there, the next one is received within a bounded number of turns |
| PumpProgress.EndsOnceNobodyHolds | crates/ruststream-amqp/src/subscriber.rs:302-328 | without shutdown, the drain ends and so does the session within five turns of the last handle |
| PumpProgress.NobodyWaitsForNothing | crates/ruststream-amqp/src/subscriber.rs:353-378 | in every run whoever waits for an answer has its settlement queued or being applied |
| Pump.PendingServesSettlements | crates/ruststream-amqp/src/subscriber.rs:222-238 | in every run, while a message is pending the next settlement is applied within four of the pump's turns, whatever handlers, the subscriber and shutdown do meanwhile |
| Pump.ErrorItemServesNone | crates/ruststream-amqp/src/subscriber.rs:334-344 | while an error item waits for a full channel that nobody reads, no number of turns applies any settlement, whatever handlers ask for meanwhile |
| Pump.ErrorItemHoldsUpASettlement | crates/ruststream-amqp/src/subscriber.rs:334-344 | a run that gets there with a settlement queued |
| PumpTask.Task.Finish | crates/ruststream-amqp/src/subscriber.rs:219-328 | in place, as the loop it is: once stop is set it ends, with the session ended, at most one more receive, one item for each receive but the last, and every disposition kept; the pump stays valid |
| PumpTask.Task.ServeOut | crates/ruststream-amqp/src/subscriber.rs:302-328 | in place, without shutdown and with no handle left: the drain applies every queued settlement in order before it ends, and then the session ends |
| Shutdown.NothingLiveAtClose | crates/ruststream-amqp/src/broker.rs:254-265 | in every run, once `stop_all` returned no guard is alive, none can be minted, and every attached subscription has ended its session |
| Shutdown.SubscribeOpens | crates/ruststream-amqp/src/broker.rs:175-195 | a subscribe asked for before shutdown begins has its pump after its three steps and the attach, whatever the others do meanwhile; a peer that refuses the session or the attach is reported as such |
| Shutdown.RefusedOnlyOnceClosed | crates/ruststream-amqp/src/broker.rs:116-120 | in every run a subscribe is refused only once shutdown raised the flag |
| Shutdown.SubscribesAreThere | crates/ruststream-amqp/src/broker.rs:760-787 | in every run each subscribe call is there |
| Shutdown.StagesInOrder | crates/ruststream-amqp/src/broker.rs:837-863 | every step of shutdown takes it to the next stage, but for the wait while a guard is alive, and nothing else moves it |
| Shutdown.ClosesFromTheInside | crates/ruststream-amqp/src/broker.rs:846-858 | in every run the stages passed are flag, slot, signal, wait, senders, session, connection, in that order from the first |
| Shutdown.LiveAtCloseOnlyAfterFailedAttach | crates/ruststream-amqp/src/broker.rs:176-195 | a session is live then if and only if its receiver's attach failed |
| Shutdown.NoGuardAfterTaken | crates/ruststream-amqp/src/broker.rs:240-251 | once the slot is empty, who holds no guard never gets one |
| Shutdown.WaitEndsExactly | crates/ruststream-amqp/src/broker.rs:262-264 | the wait ends if and only if no opening is under way and every pump is done |
| Shutdown.EveryPumpEnds | crates/ruststream-amqp/src/subscriber.rs:302-328 | once the stop signal is up every pump ends its session and drops its guard in finitely many of its turns |
| Connection.Core.Shut | crates/ruststream-amqp/src/broker.rs:837-863 | in place: the next step of shutdown, with the wait |
| Connection.Core.Ask | crates/ruststream-amqp/src/broker.rs:760-787 | in place: one more subscribe under way |
| Connection.Core.OpenSubscription | crates/ruststream-amqp/src/broker.rs:175-195 | in place: a subscribe ends with its running pump, or refused, or without its session or its receiver, exactly as shutdown and the peer decide |
| Connection.Core.ShutDown | crates/ruststream-amqp/src/broker.rs:837-863 | in place, from the closed flag to the closed connection, with its waits: nobody holds a guard, none can come out, and every attached subscription has ended its session; the connection stays valid |
| Connection.Core.EndPump | crates/ruststream-amqp/src/subscriber.rs:302-328 | in place: a pump that sees the stop signal ends its session, and touches no other subscription |
| Connection.Core.SendStop | crates/ruststream-amqp/src/broker.rs:261 | in place: the signal reaches every pump and changes nothing else |
| Connection.Core.AllGone | crates/ruststream-amqp/src/broker.rs:262-264 | looks at every guard, and says so if and only if none is alive and the slot is empty |
| Message.BuildMessage | crates/ruststream-amqp/src/message.rs:278-357 | for every iteration order: succeeds if and only if every property can hold its header, and then each well-known header is in its own property, an id as text where its bytes are text and binary where not, every other header is an application property, string or binary likewise, and a section is there exactly if something is in it; otherwise names the first refused header and why |
| Message.HeadersFromAmqp | crates/ruststream-amqp/src/message.rs:360-392 | in any order: a header is the application property of its name where that has bytes, else the property that stands for it |
| Message.NoWellKnownInApplication | crates/ruststream-amqp/src/message.rs:319-330 | no well-known header name ends up in the application properties |
| Message.WellKnownNames | crates/ruststream-amqp/src/message.rs:299-319 | the five names the properties stand for |
| Message.HeaderRoundTrip | crates/ruststream-amqp/src/message.rs:278-392 | what is built from an accepted header map reads back as that map, with only `correlation-id` replaced when a typed one is set |
| Message.TypedCorrelationRoundTrip | crates/ruststream-amqp/src/publish_step.rs:80-87 | a typed correlation comes back from the context as the same value in the same type; without one, the correlation-id's own form, else the message-id's |
| Message.ContextKeepsTheId | crates/ruststream-amqp/src/context.rs:47-64 | the context yields the id the message asks a reply to correlate to if and only if no application property hides it |
| Message.ReusedNameHidesTheId | crates/ruststream-amqp/src/context.rs:47-64 | a message whose application property reuses the name, where it does not |
| Message.BothRequestsReadTheSame | crates/ruststream-amqp/src/in_process/request.rs:38-44 | overwriting the framed headers gives the delivery that overwriting the properties before framing gives |
| Message.RequestCarries | crates/ruststream-amqp/src/in_process/request.rs:38-44 | a request reads as its body and headers with its reply address and correlation put over them, to be correlated by that text |
| Message.CorrelatedReplyIsRecognised | crates/ruststream-amqp/src/context.rs:158-169 | a reply that takes its correlation from the request's context carries the request's correlation id |
| Message.PayloadFromBody | crates/ruststream-amqp/src/message.rs:457-486 | data sections joined in order, a text or binary value's bytes, nothing for an empty body, and a refusal otherwise |
| Message.JoinedAt | crates/ruststream-amqp/src/message.rs:459-473 | every data section is in the joined payload at its place, and nothing else is |
| Utf8.Utf8Exactly | crates/ruststream-amqp/src/message.rs:294-298 | what counts as text is exactly what some sequence of Unicode scalar values encodes to (section 3 of RFC 3629) |
| MessageText.IdReadsBack | crates/ruststream-amqp/src/message.rs:394-403 | every id form reads as text that gives the id back: its bytes, its decimal digits, its hyphenated lowercase hex |
| MessageText.ValueReadsBack | crates/ruststream-amqp/src/message.rs:405-432 | so does every form of an application property whose text is not library formatting |
| MessageText.UuidReadsBack | crates/ruststream-amqp/src/message.rs:400-401 | the text of a UUID has its hyphens in place and parses back to its bytes |
| MessageText.SignedReadsBack | crates/ruststream-amqp/src/message.rs:417-424 | the text of a signed number parses back to it |
| MessageText.DecimalIsCanonical | crates/ruststream-amqp/src/message.rs:401-402 | decimal digits only, with no leading zero |
| Message.DecimalReadsBack | crates/ruststream-amqp/src/message.rs:396-403 | a numeric id's text stands for that number only |
| JsonBody.Build | crates/ruststream-amqp-bench/benches/paired.rs:179-208 | terminates; with overflow checks the field counter overflows exactly for the bodies that take that many fields; otherwise a body of exactly that many bytes for every size that fits, and the failed assertion for every other |
| JsonBody.KeyGrowsByOne | crates/ruststream-amqp-bench/benches/paired.rs:186-200 | a key is at most one digit longer than the one before it |
| JsonBody.PaddingReads | crates/ruststream-amqp-bench/benches/paired.rs:180-201 | read by its quotes, the padding is the numbered members, each with its padding, up to the closing brace |
| JsonBody.NamesDiffer | crates/ruststream-amqp-bench/benches/paired.rs:181-199 | no two members share a name before the counter wraps |
| StreamAnswer.Stream | website/src/components/AskAi/client.ts:53-143 | however the text is cut into chunks: the deltas are, in order, the non-empty texts of its `data:` lines before the first that fails; a line fails exactly if its trimmed payload is not `[DONE]` and does not parse, is an error or is null, with that reason; and the answer has no text exactly if no line fails and none gives text |
| StreamAnswer.FailureIsFinal | website/src/components/AskAi/client.ts:120-140 | a failure in the lines taken so far is the whole text's failure, however it goes on |

## Left out

- Sockets, TLS, SASL, URLs and the AMQP client library: the receiver, the session and the connection answer
  calls as the schedule says; how the client tops up link credit is not modelled.
- The server's side of a live transaction (`txn.rs`, `txn/owned.rs`): the post, the discharge and the rollback
  of a dropped one are the server's; the in-process transport's atomicity is what is proved.
- `sender_for` and `SenderLink`: attaching and closing publisher links are single steps of the shutdown.
- Wall-clock time: a timeout is a point in the order of arrivals, and a wake-up can come at any time.
- Memory ordering: the settlement line's atomics are `SeqCst`, so interleaving their operations is what they
  promise; the closed flags are plain steps.
- Integer widths other than those of the turn counter and the benchmark's field counter: ids, request numbers
  and the delivery count are unbounded.
- Text of float, decimal and described application values: library formatting, an unspecified result here.
- `routes` on a live connection, which counts what it opened (`broker.rs:942-947`): `RouterPrediction` is the
  in-process answer.
- The first 80 characters of an unexpected line are characters here, UTF-16 units in the source.
- Starvation: a newcomer may overtake a waiting settlement, so no settlement is promised a slot.
- BusSubscribers.TopicGetsEverything: a detach is one step there, as in `BusWorld`.
- BusExactlyOnce.DeliveryConserved: a detach is one step there; with its two halves apart it is
  `BusDetachOnce.DeliveryConservedInHalves`.
- BusFifo.OneFifo: the queue subscriptions are at-least-once, because an at-most-once one takes what it has
  not read with it; and runs go up to the transport's close, which drops what the stored queue holds.
- InFlight.NeverBelow: the coordinator is installed before anything is counted, and which subscriptions a call
  sends to is left open, so it holds for every routing.
- Requests.AwaitReply: the order in which replies and the deadline arrive is an input.
- SettleLineObject.Shared.Settle: nobody else moves meanwhile; under any interleaving the promise is
  `SettleLineAnswers.EveryAnswerIsItsOwn` and `SettleLineWakeup.NoLostWakeup`.
- Connection.Core.ShutDown: the pumps and the openings under way are run one after another; under any
  interleaving the promise is `Shutdown.NothingLiveAtClose` and `Shutdown.EveryPumpEnds`.
- Tracing, AsyncAPI bindings, builders, the website's components and the examples: description and UI.
