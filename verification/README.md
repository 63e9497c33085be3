# Verification of the order books, the matcher, the rate limiter and the order stream

The project models four parts of an arbitrage bot in Dafny and proves what they keep over all inputs
and all runs. `dafny verify dfyconfig.toml` checks everything.

## What is modelled

**Order-book synchronisation** (`OrderBooks`, `ServerHistory`, `Waiters`, `DepthSync`, `Gate*`,
`Binance*`). A local book is rebuilt from a snapshot request and a stream of diff messages. The
book's id is its state: 0 unsynced, 1 waiting while messages are buffered, 2 or more live. A message
handler runs without interruption except while its snapshot is fetched and while it sleeps before
another look at the buffer; each uninterrupted stretch is one step of a state machine. The state
holds every book ever created (a position stands for the shared reference), so books that were
unsubscribed while their handler was suspended are part of it. `GateProtocol` and `BinanceProtocol`
give the steps on values; `GateClient` and `BinanceClient` perform them in place on objects and
maps, and each method is proved equal to its step. `GateEffects` and `BinanceEffects` say of every
step what it has to do, in terms of the state's own parts; the other modules say what no run does.
The exchange is a history: its book at every id. A message is truthful when each listed price's last
entry is its quantity at the message's last id and unlisted prices did not change; a snapshot lists
the best hundred levels at most, so a book also carries, for the proofs, the prices it vouches for:
the window of its snapshot and the prices seen since. Gate's theorems assume nothing about delivery;
Binance's replay is unchecked, so its theorems assume an ordered stream that is lossless and
parseable while a book waits, and say exactly what happens otherwise.

**The matcher** (`MaxPrice`, `Matching`, `EntryArbitrage`, `ExitArbitrage`). Greedy two-pointer
matching of spot levels against future levels, and the threshold search. One turn of a loop is a
function on the matcher's state; runs are followed turn by turn; `DoEntry` and `DoExit` are the
loops. Prices and quantities are exact reals. Preconditions are positive prices, non-negative
volumes and a contract size above 0 and at most 1; what needs sorted sides says so.

**The rate limiter** (`TokenBucket`, `Ratelimiter`, `LimiterThreads`, `LimiterCalls`,
`LimiterWindow`). `TokenBucket` takes a call as one step on unbounded numbers; `Ratelimiter` is the
class at 64 bits, alignment included; `LimiterThreads` takes calls apart into single atomic
operations of any number of threads, with spurious failures of the weak compare-and-swap and a clock
that moves at any time, `LimiterCalls` says how its calls and refills end under contention, and
`LimiterWindow` bounds what it grants.

**The order stream** (`OrderStream`). A producer numbers orders and wakes waiters; consumers ask for
everything after the last number they saw.

## What came out

- Gate's panic on a bid that is missing from the symbol's set **can happen** in a truthful run
  (`GatePanic`): a handler of an unsubscribed book replays an old removal after the next book of the
  symbol went live. The exact condition is on the step: the sets know all bids of the live books
  until a step resumes a handler of an unsubscribed book whose accepted replay finally removes a bid
  of the symbol's live book (`StepKnownIff`); only a run with such a step panics
  (`PanicNeedsUncovering`). After it, a true next message panics if and only if it is not full and
  does not mention a lost bid (`BroadcastPanicsIff`), and there is one if and only if a lost bid is
  the same at the next id (`TruthfulMessagePanicsIff`). Runs in which full messages reach unsynced
  books only over empty buffers have no such step.
- Binance's replay does not check that messages connect. It is right for every exchange that the
  messages may have come from if and only if each begins at or before the end of the one before it
  (`BinanceReplay`), which the code could test beforehand. One message lost while a book waits makes
  the book live and wrong (`BinanceLoss`), and so can the gap between an unsubscription and the next
  subscription, for the unsubscribed book (`BinanceOrphans`). Gate's checked replay unsyncs the book
  instead.
- The limiter's documentation promises that a sliding window never grants more than `max_tokens`.
  Shared between threads, the limiter keeps that for any window, even an instant, exactly when it
  never refills (`LimiterWindow`): a thread suspended between claiming ticks and adding their tokens
  adds them later, so k such claims let a window grant capacity × (1 + k) + refill × ceil(window /
  interval), which is exact. To calls that do not overlap it grants capacity + refill × ceil(window
  / interval), which is exact too, and keeps the promise exactly when it never refills or the window
  is an instant (`TokenBucket`).
- The limiter's alignment does not align refills: start and last tick move by the same phase, so the
  next refill always comes one interval after the synchronisation (`SynchronisedTicks`).
- Both matchers offer a future level's volume times the contract size but subtract the fill from the
  unscaled volume, so for every contract size below one there is a request that fills a level beyond
  its scaled volume; for one there is none.
- The threshold search is right for every percentage, also below -100, as long as prices are
  positive.
- When a connection fails its task ends, and with it every suspended handler
  (src/base/ws/client.rs:381-390), so no handler of an earlier connection resumes on a cleared
  buffer.

## Model

| member | source | states |
|---|---|---|
| OrderBooks.FoldAt | src/base/exchange/order.rs:59-80 | after a message's entries are applied in order, each price's level is what the last entry for it says (quantity zero: no level), and unlisted prices keep theirs |
| OrderBooks.AppliedTakes | src/base/exchange/order.rs:48-89 | a message is taken on both sides price by price: the last entry decides, an unlisted price keeps its level unless the message is full; the last id becomes the book's, or, without one, a message that lists anything moves the id on by one |
| OrderBooks.OrderBook.ApplyUpdate | src/base/exchange/order.rs:48-89 | the two in-place loops and the id rules yield exactly the value `Applied` of the old book: a full message replaces both sides, a positive last id becomes the book's id, otherwise a non-empty message adds one |
| ServerHistory.AbsorbSide | src/base/exchange/order.rs:59-80 | a truthful diff that starts at or before the book's id and ends after it turns a side that equals the exchange's on its tracked prices into one that equals the exchange's at the diff's end, with the listed prices tracked in addition |
| ServerHistory.Absorb | src/base/exchange/order.rs:48-89 | overlap absorption for whole books: parts of the diff that the book already reflects do no harm, and the book ends at the message's last id |
| ServerHistory.SnapshotIsGood | src/exchange/gate/public/sub_client.rs:301-304 | a truthful snapshot is the exchange's book on the prices it vouches for, and the whole side when it is shorter than the limit |
| ServerHistory.BestPriceIsServers | src/utils/exchange.rs:16-23 | while a side has a level inside its window, its first entry is the exchange's best price with the exchange's quantity, although levels outside the window may be missing |
| Waiters.EnqueueConserves | src/base/exchange/sub_client.rs:176-176 | after a waiter joins a queue, every waiter ever issued is in exactly one place: one slot of one queue, one delivery, or dropped |
| Waiters.DeliverConserves | src/exchange/gate/public/sub_client.rs:249-252 | the same after a queue is served: nobody is served twice or lost; and serving a live book keeps all deliveries deliveries of live books |
| Waiters.DropConserves | src/base/exchange/sub_client.rs:185-186 | the same after one symbol's queue is dropped |
| Waiters.DropAllConserves | src/base/exchange/sub_client.rs:134-138 | the same after a failed connection drops all queues |
| GateSafety.ReplayGood | src/exchange/gate/public/sub_client.rs:317-333 | replaying truthful buffered messages on a good live book ends with a good book at the same or a later id, or with an unsynced one |
| GateSafety.StartSyncKeepsCore | src/exchange/gate/public/sub_client.rs:263-267 | starting a sync gives the waiting book a handler of its own and leaves every other book, handler and buffer good |
| GateSafety.ArriveKeepsCore | src/exchange/gate/public/sub_client.rs:257-351 | a truthful message on any path (start, buffer, reset, apply, full) keeps every live book true and every waiting subscribed book attended by exactly one handler |
| GateSafety.ArriveKeepsQueues | src/exchange/gate/public/sub_client.rs:211-255 | a message serves waiters only with a live book, loses none, and keeps the keys of the two maps equal |
| GateSafety.InstallKeepsCore | src/exchange/gate/public/sub_client.rs:301-333 | the snapshot and the rest of the buffer leave the waiting book true and live, or unsynced |
| GateSafety.LookKeepsCore | src/exchange/gate/public/sub_client.rs:276-333 | one turn of the straddle search keeps the invariant whether it gives up, sleeps or installs |
| GateSafety.WatchKeepsQueues | src/base/exchange/sub_client.rs:151-195 | the lookup that `watch` unwraps always finds its queue, and the two maps keep equal keys, whether the subscription succeeds or not |
| GateSafety.FailedWatchIsUndone | src/base/exchange/sub_client.rs:180-190 | a first watch whose subscription fails leaves both maps as they were; only its own waiter is dropped |
| GateSafety.AppliedMessageServes | src/exchange/gate/public/sub_client.rs:211-255 | a message that a subscribed book applies brings it to the message's last id and delivers that book at that id to every waiter of the symbol, leaving their queue empty |
| GateSafety.StepKeepsInv | src/exchange/gate/public/sub_client.rs:257-358 | every event, from any reachable state, keeps the whole invariant |
| GateSafety.RunKeepsInv | src/exchange/gate/public/sub_client.rs:257-358 | so does every run: any interleaving, loss, duplication, reordering and sharing of buffers between books of one symbol |
| GateSafety.EveryRunIsSafe | src/exchange/gate/public/sub_client.rs:257-351 | in every truthful run every live book, orphaned ones included, equals the exchange's book at exactly its id on its tracked prices, and wholly when its window is everything; waiters are conserved |
| GateSafety.EveryRunShowsBestPrices | src/utils/exchange.rs:16-23 | in every truthful run a live book with a level inside its window shows the exchange's best price and quantity |
| GateEffects.UnheardIsIgnored | src/exchange/gate/public/sub_client.rs:160-172 | a message for a symbol that nobody subscribes to changes nothing |
| GateEffects.DiffStartsSync | src/exchange/gate/public/sub_client.rs:263-267 | a diff for an unsynced book makes it wait, keeps or opens the buffer, and suspends one new handler that asks for a snapshot as recent as the diff; nothing else changes |
| GateEffects.WaitingBuffers | src/exchange/gate/public/sub_client.rs:336-337 | while a book waits, a message that parses goes to the end of the buffer, and nothing else changes |
| GateEffects.GapUnsyncs | src/exchange/gate/public/sub_client.rs:338-348 | a message that does not connect empties and unsyncs a live book, and nothing else changes |
| GateEffects.FittingIsTaken | src/exchange/gate/public/sub_client.rs:211-261 | a message that connects, or is full for an unsynced book, is taken price by price and brings the book to its last id; its bids are entered in the symbol's set price by price; a bid outside the set panics; otherwise exactly the symbol's queue is served, in order, with that book at that id; nothing else changes |
| GateEffects.UnparseableIsIgnored | src/exchange/gate/public/sub_client.rs:181-209 | such a message whose levels do not parse changes nothing |
| GateEffects.WakeLooks | src/exchange/gate/public/sub_client.rs:276-333 | a handler that wakes looks again one try later: out of five tries it unsyncs its book and ends; without a message that continues its snapshot it sleeps on; otherwise its book ends true and live at the last buffered message if every later message begins no later than the id after the one before it and ends later, and unsynced if not |
| GateEffects.SnapshotLooks | src/exchange/gate/public/sub_client.rs:266-333 | the first answer of five that is an error or recent enough decides: a snapshot is looked at in the same way, an error or five old answers unsync the book and end the handler |
| GateEffects.LookRecordsBids | src/exchange/gate/public/sub_client.rs:306-332 | a look that installs enters the snapshot's bids and those of the accepted messages in the symbol's set, price by price |
| GateEffects.WatchQueues | src/base/exchange/sub_client.rs:158-191 | a watch that is not undone adds one new waiter at the end of its symbol's queue, and a first one an empty unsynced book; no other queue, delivery or drop changes |
| GateEffects.WatcherIsServed | src/base/exchange/sub_client.rs:176-194 | so the watcher gets the book of the next message that fits, at that message's last id |
| GateEffects.UnwatchRemoves | src/base/exchange/sub_client.rs:198-213 | an unwatch takes away exactly the symbol and its queue; a failed request keeps the book and its queue |
| GateEffects.FailureEmpties | src/base/exchange/sub_client.rs:134-138 | a failed connection empties the maps and buffers, drops exactly those who waited, and ends the handlers |
| GateProgress.LookEnds | src/exchange/gate/public/sub_client.rs:276-299 | one look changes no other book; it ends its handler with the book unsynced or live, or puts it to sleep with one try less |
| GateProgress.ResumeEnds | src/exchange/gate/public/sub_client.rs:263-333 | the same for resuming a handler at either suspension point |
| GateProgress.WaitingIsUndisturbed | src/exchange/gate/public/sub_client.rs:336-337 | a waiting book is changed by nobody but its own handler, and a handler that is not resumed is left alone unless the connection fails |
| GateProgress.StepAdvances | src/exchange/gate/public/sub_client.rs:338-351 | on every step a live book stays as it is, is unsynced, or moves to a strictly later id |
| GateProgress.SyncEnds | src/exchange/gate/public/sub_client.rs:276-299 | in no run is a handler resumed more than six times; a handler that still exists can still be resumed |
| GateHistory.EditHistoryAt | src/exchange/gate/public/sub_client.rs:232-240 | after a message a price is in the symbol's bid set iff its last entry is not zero, or it has no entry and was there |
| GateHistory.BroadcastPanicsIff | src/exchange/gate/public/sub_client.rs:232-246 | the bid check panics iff the message is not full and the book has a bid that the set has lost and the message does not mention |
| GateHistory.OrphanReplayCoversIff | src/exchange/gate/public/sub_client.rs:317-332 | the replay of an unsubscribed book's handler leaves the subscribed live book's bids inside the set iff it does not finally remove one of them |
| GateHistory.SomeMessagePanicsIff | src/exchange/gate/public/sub_client.rs:242-246 | a live subscribed book can be brought to panic by some next message, true or not, iff the set has lost one of its bids |
| GateHistory.TruthfulMessagePanicsIff | src/exchange/gate/public/sub_client.rs:242-246 | some true next message brings it to panic iff a lost bid is the same at the exchange at the next id, so that the message need not mention it |
| GateHistory.LookKnownIff | src/exchange/gate/public/sub_client.rs:276-333 | after one look the sets still know every live subscribed book's bids iff it is not such a replay |
| GateHistory.StepKnownIff | src/exchange/gate/public/sub_client.rs:232-333 | from a reachable state in which the sets know all those bids no event panics, and they still know them afterwards iff the event does not resume a handler of an unsubscribed book whose accepted replay finally removes a bid of the symbol's live book |
| GateHistory.CoveringRunsDoNotPanic | src/exchange/gate/public/sub_client.rs:242-246 | a truthful run without such an event does not panic, at the bid check or in `watch` |
| GateHistory.PanicNeedsUncovering | src/exchange/gate/public/sub_client.rs:242-246 | every truthful run that panics has such an event, before which nothing panicked and all bids were known |
| GateHistory.QuietRunsDoNotPanic | src/exchange/gate/public/sub_client.rs:258-261 | a corollary: full messages that reach unsynced books only over empty buffers leave no such event |
| GatePanic.PanicIsReachable | src/exchange/gate/public/sub_client.rs:242-246 | eight truthful events after which the bid check has panicked |
| GateClient.FetchSnapshot | src/exchange/gate/public/sub_client.rs:70-149 | of at most five answers the loop returns the first that is recent enough, and nothing if an error or five old answers come first |
| GateClient.RecordBids | src/exchange/gate/public/sub_client.rs:234-240 | the loop over the message's bids is `EditHistory` |
| GateClient.ReplayOn | src/exchange/gate/public/sub_client.rs:317-333 | the replay loop on the shared book is `Replay`, and changes no other book: book and bid set together, stopping at the first message that does not connect |
| GateClient.Client.BroadcastUpdate | src/exchange/gate/public/sub_client.rs:211-255 | in place, one broadcast: the book, its symbol's bid set, the check, the waiters, and nothing else |
| GateClient.Client.HandleMessage | src/exchange/gate/public/sub_client.rs:257-351 | in place, one message up to its first suspension is `ArriveStep` |
| GateClient.Client.InstallOn | src/exchange/gate/public/sub_client.rs:301-333 | in place, installing a snapshot and replaying is `Install` |
| GateClient.Client.Look | src/exchange/gate/public/sub_client.rs:276-333 | in place, one turn of the straddle search is `LookStep`; it takes the whole buffer |
| GateClient.Client.ResumeSnapshot | src/exchange/gate/public/sub_client.rs:266-276 | in place, the stretch after the snapshot request is `SnapshotStep` |
| GateClient.Client.ResumeSleep | src/exchange/gate/public/sub_client.rs:290-294 | in place, the stretch after the sleep is `WakeStep` |
| GateClient.Client.Watch | src/base/exchange/sub_client.rs:151-195 | in place, `WatchStep`: book and queue opened on the first watch, the waiter queued, a failed subscription undone |
| GateClient.Client.Unwatch | src/base/exchange/sub_client.rs:198-213 | in place, `UnwatchStep`: both maps lose the symbol, or a failed request puts the same book back |
| GateClient.Client.OnFail | src/base/ws/client.rs:381-390 | in place, `FailStep`: the maps and buffers are cleared and the suspended handlers end with their connection's task |
| GateClient.Client.Perform | src/exchange/gate/public/sub_client.rs:151-358 | any event: the client does exactly the protocol's step, and truthful events keep the safety invariant |
| DepthSync.FindStraddle | src/exchange/gate/public/sub_client.rs:285-288 | the search finds the first buffered message that continues the snapshot, or the buffer's length |
| DepthSync.TakeSnapshot | src/exchange/gate/public/sub_client.rs:301-304 | in place, a snapshot replaces both sides of one shared book and of no other |
| BinanceSafety.BufferGrows | src/exchange/binance/public/sub_client.rs:203-204 | buffering the next message keeps the buffer a run of leftovers followed by a contiguous chain |
| BinanceSafety.StraddleStartsChain | src/exchange/binance/public/sub_client.rs:181-193 | in a buffer with leftovers of earlier attempts, the first message that continues the snapshot and all that follow it form a chain contiguous with the snapshot |
| BinanceSafety.ReplayAllGood | src/exchange/binance/public/sub_client.rs:197-202 | the unchecked replay of a contiguous chain takes a good book to a good book |
| BinanceSafety.ArriveKeepsInv | src/exchange/binance/public/sub_client.rs:203-232 | a faithful message keeps the invariant on every path: start, buffer, range test (spot), `pu` chain (futures), reset, ignored |
| BinanceSafety.StepKeepsInv | src/exchange/binance/public/sub_client.rs:158-239 | every faithful event keeps the invariant |
| BinanceSafety.RunKeepsInv | src/exchange/binance/public/sub_client.rs:158-239 | so does every faithful run |
| BinanceSafety.EveryRunIsSafe | src/exchange/binance/public/sub_client.rs:107-235 | on both markets, over a stream in order that is lossless and parseable while books wait, every subscribed live book is the exchange's book at its id on the tracked prices |
| BinanceEffects.UnheardIsIgnored | src/exchange/binance/public/sub_client.rs:119-122 | a message for a symbol that nobody subscribes to changes nothing |
| BinanceEffects.MessageStartsSync | src/exchange/binance/public/sub_client.rs:158-163 | a message for an unsynced book makes it wait, keeps or opens the buffer, and suspends one new handler that asks for a snapshot as recent as the message; nothing else changes |
| BinanceEffects.WaitingBuffers | src/exchange/binance/public/sub_client.rs:203-204 | while a book waits, a message that parses goes to the end of the buffer, and nothing else changes |
| BinanceEffects.LiveTakes | src/exchange/binance/public/sub_client.rs:205-231 | a live book takes the message that continues it, by range on spot and by the previous id on futures, price by price, and goes on at its last id; one that does not parse is ignored |
| BinanceEffects.LiveResets | src/exchange/binance/public/sub_client.rs:205-229 | any other message empties and unsyncs a live book, but a futures message without the previous id changes nothing |
| BinanceEffects.ReplayTakes | src/exchange/binance/public/sub_client.rs:197-202 | a replay is one message that lists all their entries in order, and ends at the last message's id |
| BinanceEffects.WakeLooks | src/exchange/binance/public/sub_client.rs:172-202 | a handler that wakes looks again one try later: out of five tries it unsyncs its book and ends; without a message that continues its snapshot it sleeps on; otherwise its book is the snapshot with all the rest of the buffer taken, at the last message's id |
| BinanceEffects.SnapshotLooks | src/exchange/binance/public/sub_client.rs:165-202 | the answer that ends the asking is looked at in the same way, or, if an error, unsyncs the book and ends the handler |
| BinanceEffects.BuffersHoldDiffs | src/exchange/binance/public/sub_client.rs:203-204 | in every state of a faithful run the buffers hold diffs with ids, which is what the looks and the replay rely on |
| BinanceEffects.WatchOpens | src/base/exchange/sub_client.rs:151-191 | a first watch opens an empty unsynced book; when the request fails the symbol is not subscribed |
| BinanceEffects.UnwatchRemoves | src/base/exchange/sub_client.rs:198-213 | an unwatch takes exactly the symbol away; a failed request changes nothing |
| BinanceEffects.FailureEmpties | src/base/exchange/sub_client.rs:134-138 | a failed connection empties the maps and buffers and ends the handlers |
| BinanceReplay.ReplayRightIff | src/exchange/binance/public/sub_client.rs:197-202 | true messages in order, the first of which continues a true snapshot, are replayed to the book of every exchange of which they are true iff each begins at or before the end of the one before it |
| BinanceReplay.LookRightIff | src/exchange/binance/public/sub_client.rs:181-202 | the same for one look of any handler, its book subscribed or orphaned: the book goes live, and right, iff the rest of the buffer is so connected |
| BinanceReplay.SpotConnects | src/exchange/binance/public/sub_client.rs:209-214 | on the spot market this is the range test that live books make and the replay does not |
| BinanceLoss.LossGoesUnnoticed | src/exchange/binance/public/sub_client.rs:197-202 | a run on either market in which everything that arrives is true and of the ids 2 to 5 only 4 is missing, and the subscribed book ends up live at 5 and different from the exchange's |
| BinanceOrphans.OrphanGoesWrong | src/exchange/binance/public/sub_client.rs:197-202 | a run over a faithful stream on either market after which an unsubscribed book is live and wrong |
| BinanceProgress.LookEnds | src/exchange/binance/public/sub_client.rs:172-202 | one look changes no other book; it ends its handler with the book unsynced or live, or puts it to sleep with one try less |
| BinanceProgress.WaitingIsUndisturbed | src/exchange/binance/public/sub_client.rs:203-204 | a waiting book is changed by nobody but its own handler, and a handler that is not resumed is left alone unless the connection fails |
| BinanceProgress.StepAdvances | src/exchange/binance/public/sub_client.rs:205-232 | on every faithful step a live book stays as it is, is unsynced, or moves to a strictly later id |
| BinanceProgress.SyncEnds | src/exchange/binance/public/sub_client.rs:172-195 | in no faithful run is a handler resumed more than six times; a handler that still exists can still be resumed |
| BinanceProgress.EveryRunShowsBestPrices | src/utils/exchange.rs:16-23 | in every faithful run a live subscribed book with a level inside its window shows the exchange's best price and quantity |
| BinanceClient.FetchSnapshot | src/exchange/binance/public/sub_client.rs:56-94 | the loop asks until an error or a snapshot that is recent enough, and returns that; for a message with id 0 it asks nothing and returns the empty book |
| BinanceClient.ReplayOn | src/exchange/binance/public/sub_client.rs:197-202 | the replay loop on the shared book is `ReplayAll`, and changes no other book |
| BinanceClient.Client.Live | src/exchange/binance/public/sub_client.rs:205-232 | in place, a live book applies, ignores or is reset by the next message, by range or by chain |
| BinanceClient.Client.HandleMessage | src/exchange/binance/public/sub_client.rs:107-235 | in place, one message up to its first suspension is `ArriveStep` |
| BinanceClient.Client.Look | src/exchange/binance/public/sub_client.rs:172-202 | in place, one turn of the straddle search is `LookStep` |
| BinanceClient.Client.Perform | src/exchange/binance/public/sub_client.rs:107-239 | any event, faithful or not: the client does exactly the protocol's step, and faithful events keep the safety invariant |
| TokenBucket.RefillConserves | dependencies/ratelimit/src/lib.rs:239-291 | a refill mints exactly one refill amount per credited tick, drops only what does not fit into a bucket that is then full, keeps the phase of the ticks, never passes the clock, leaves less than one interval uncredited and touches no parameter |
| TokenBucket.CallConserves | dependencies/ratelimit/src/lib.rs:299-326 | a call is granted iff what is there after crediting the due ticks is enough, and takes exactly what it asks for or nothing |
| TokenBucket.TicksSplit | dependencies/ratelimit/src/lib.rs:251-258 | crediting some ticks early changes nothing about how many there are in all |
| TokenBucket.GrantedFromStock | dependencies/ratelimit/src/lib.rs:299-326 | any sequence of calls up to a time is granted at most the stock and what the ticks up to that time bring |
| TokenBucket.SlidingWindowBound | dependencies/ratelimit/src/lib.rs:239-326 | in any run of calls that do not overlap, calls inside one window of length W are granted at most capacity + refill × ceil(W / interval) |
| TokenBucket.BoundIsReached | dependencies/ratelimit/src/lib.rs:239-326 | for every configuration and W there are such calls inside one window that are granted exactly that |
| TokenBucket.DocumentedWindowIff | dependencies/ratelimit/src/lib.rs:18-21 | to calls that do not overlap, the documented claim (a window never grants more than `max_tokens`) is kept iff the limiter never refills or the window is an instant; `LimiterWindow.SharedWindowIff` has the condition for a shared limiter |
| TokenBucket.WaitHintIsExact | dependencies/ratelimit/src/lib.rs:317-323 | the hint is at most one interval and positive when the clock is read once; before it ends no retry finds more tokens, and once it has ended a retry for at most one refill succeeds |
| TokenBucket.SynchronisedTicks | dependencies/ratelimit/src/lib.rs:336-368 | synchronising makes nothing due; the next refill comes one interval after the call for every alignment, so it falls on a window's start iff the phase plus one interval does, and for windows of one interval iff the call did |
| Ratelimiter.Limiter.MaybeRefill | dependencies/ratelimit/src/lib.rs:239-291 | on 64-bit fields, one undisturbed refill is `Refilled`, and nothing overflows while the stated sums fit |
| Ratelimiter.Limiter.TryWaitN | dependencies/ratelimit/src/lib.rs:299-326 | on 64-bit fields, one undisturbed call is `TryWaitN` on the bucket, outcome included |
| Ratelimiter.Limiter.SetRefillInterval | dependencies/ratelimit/src/lib.rs:125-131 | rejects exactly the intervals beyond 64 bits of nanoseconds; changes nothing else |
| Ratelimiter.Limiter.SetRefillAmount | dependencies/ratelimit/src/lib.rs:139-147 | rejects exactly amounts above the capacity, so one refill still fits the bucket |
| Ratelimiter.Limiter.SetMaxTokens | dependencies/ratelimit/src/lib.rs:165-202 | rejects exactly capacities below one refill; an increase is added to the available tokens up to the 64-bit maximum, a decrease takes none away |
| Ratelimiter.Limiter.SetAvailable | dependencies/ratelimit/src/lib.rs:211-218 | rejects exactly amounts above the capacity |
| Ratelimiter.Limiter.SyncTime | dependencies/ratelimit/src/lib.rs:343-369 | the phase is the server time modulo the alignment's unit, and start and last tick are set from it |
| Ratelimiter.Limiter.SetAlignment | dependencies/ratelimit/src/lib.rs:381-412 | the same with the new alignment and the system clock |
| Ratelimiter.PhaseOf | dependencies/ratelimit/src/lib.rs:349-361 | time since the window's start: modulo a minute, a second or the interval, and 0 for interval 0 |
| Ratelimiter.Build | dependencies/ratelimit/src/lib.rs:465-542 | fails exactly on a capacity below one refill, an interval beyond 64 bits, or too many initial tokens, with these errors in this order; otherwise the limiter is synchronised with the server time carried on by the local clock, or the system time, and nothing is due |
| LimiterThreads.ClaimKeepsInv | dependencies/ratelimit/src/lib.rs:260-270 | a claim keeps the balance whether its compare-and-swap succeeds or not: claimed refills are in flight until added, and the last tick does not go back |
| LimiterThreads.StepKeepsInv | dependencies/ratelimit/src/lib.rs:239-326 | every load, compare-and-swap and fetch-add of any thread, and every movement of the clock, keeps the balance |
| LimiterThreads.TokensAreConserved | dependencies/ratelimit/src/lib.rs:239-326 | in every interleaving of any number of threads: available + acquired + dropped + in flight = initial + refill × elapsed ticks; the last tick keeps its phase, only grows and never passes the clock |
| LimiterThreads.TokensBetween | dependencies/ratelimit/src/lib.rs:239-326 | between any two points of any interleaving: available + acquired + dropped + in flight grows by refill × elapsed ticks, so no more is acquired in between than was available and in flight and those refills |
| LimiterCalls.DropsOnlyWhenFull | dependencies/ratelimit/src/lib.rs:271-284 | whatever the contention, a step that sets tokens aside to be dropped leaves the bucket full, and sets aside exactly what does not fit |
| LimiterCalls.AddsAllThatFits | dependencies/ratelimit/src/lib.rs:270-289 | an add that meets no contention adds all that fits; one that does changes nothing and is tried again with all its tokens |
| LimiterCalls.SpuriousFailureRetries | dependencies/ratelimit/src/lib.rs:271-288 | a failure of the weak compare-and-swap for no reason changes nothing either |
| LimiterCalls.NothingIsDroppedWithRoom | dependencies/ratelimit/src/lib.rs:270-289 | if the initial tokens and the refills of all elapsed ticks fit, no interleaving drops a token or is about to |
| LimiterCalls.CallEnds | dependencies/ratelimit/src/lib.rs:299-326 | a call goes on asking for the same, or ends with exactly that taken, or is refused at a moment when there is less |
| LimiterCalls.RetriesOnlyAfterAChange | dependencies/ratelimit/src/lib.rs:260-316 | a claim, an add or a take fails only because another thread changed what was read |
| LimiterCalls.RefusalHints | dependencies/ratelimit/src/lib.rs:317-323 | the hint runs from the clock that the refused thread reads to the tick that it then loads plus one interval, or is zero |
| LimiterWindow.SharedWindowBound | dependencies/ratelimit/src/lib.rs:239-326 | between any two points at most W apart of any interleaving, at most capacity × (1 + claims suspended at the first point) + refill × intervals since the last credited tick is acquired; with no tick overdue at the first point, refill × ceil(W / interval) |
| LimiterWindow.SharedBoundIsReached | dependencies/ratelimit/src/lib.rs:251-289 | for every refilling configuration, number of suspended claims and W there is a run that acquires exactly capacity × (1 + claims) + refill × ceil(W / interval) within W |
| LimiterWindow.SharedWindowIff | dependencies/ratelimit/src/lib.rs:18-21 | a limiter shared between threads keeps the documented claim for any window, an instant included, iff it never refills |
| LimiterThreads.NothingOverflows | dependencies/ratelimit/src/lib.rs:221-326 | every number of tokens a thread is about to compute is at most the initial tokens plus one refill per interval of the clock, and every time, the hint's included, at most the clock plus one interval |
| LimiterThreads.SoloCallIsAtomic | dependencies/ratelimit/src/lib.rs:299-326 | a call no other thread interrupts does exactly what the one-step call does, its wait hint included |
| MaxPrice.NextRow | src/arbitrage/common.rs:105-126 | moving one buying price on extends the brute-force answer by that row |
| MaxPrice.FindMaxPrice | src/arbitrage/common.rs:96-128 | on any sides with positive prices the pair returned reaches the percentage; on sorted sides the two-pointer search equals brute force over all pairs, for every percentage: nothing iff no pair qualifies, otherwise a qualifying pair of least excess, of the lowest buying price among those |
| MaxPrice.RequiredGrows | src/arbitrage/common.rs:109-112 | a price passed over for one buying price can be passed over for all later ones |
| MaxPrice.RequiredIff | src/arbitrage/common.rs:109-118 | reaching the required price is the same as a non-negative excess |
| Matching.RecordCounts | src/arbitrage/entry.rs:62-76 | joining or pushing an order adds exactly the filled quantity, and its cost up to float precision |
| Matching.RecordConsolidates | src/arbitrage/entry.rs:62-76 | neighbouring orders never have prices that are equal up to float precision |
| Matching.ToleranceIff | src/arbitrage/common.rs:131-136 | a total is inside the tolerance iff it is no farther from the base than the percentage of the base |
| Matching.TakeKeepsRemaining | src/arbitrage/entry.rs:96-104 | a fill takes its quantity from the current level only, and the position moves on exactly past levels used up to a residual |
| EntryArbitrage.FillBounds | src/arbitrage/entry.rs:43-56 | a fill uses up the spot level, the future level's scaled volume or the budget, is within all three and at least the residual, at a gain of at least the percentage that is not a residual |
| EntryArbitrage.TurnProgresses | src/arbitrage/entry.rs:96-104 | every turn passes a level or takes at least the residual from the current future level, so the loop ends |
| EntryArbitrage.RunIsGood | src/arbitrage/entry.rs:34-117 | levels, money and orders stay consistent over the whole run, and the run ends only where the loop does |
| EntryArbitrage.EntryConserves | src/arbitrage/entry.rs:58-106 | both order lists and `executed` agree with what the levels gave, and cost what was paid and brought up to float precision; no level gives more than its volume; the budget is not exceeded |
| EntryArbitrage.EntryOrdersFollowLevels | src/arbitrage/entry.rs:62-94 | both order lists have the prices of levels, in the levels' order and one order for a level at most |
| EntryArbitrage.EntryProfits | src/arbitrage/entry.rs:108-139 | whenever anything is filled, `profitPercent` is the percentage by which the sales exceed the purchases, in terms of the order lists up to float precision, and at least the requested one; `completed` iff both totals are no farther from the amount than the margin; an empty result is all zero |
| EntryArbitrage.EntryPrices | src/arbitrage/entry.rs:141-153 | whenever anything is filled, the result's price pair is one of the levels' pairs, reaches the percentage, and does so at the least gain |
| EntryArbitrage.EntryLeavesOutIff | src/arbitrage/entry.rs:34-56 | when the loop stops with budget and levels left on both sides, some remaining pair gains enough iff the current one does and its gain, its spot level's volume or its future level's scaled rest is a residual; for all contract sizes and volumes |
| EntryArbitrage.EntryIsMaximal | src/arbitrage/entry.rs:34-56 | with whole contracts, no dust levels and a percentage above the residual, no remaining pair of levels could still have been filled |
| EntryArbitrage.MaximalIff | src/arbitrage/entry.rs:34-56 | for a contract size this holds of all such requests iff the contract size is one |
| EntryArbitrage.ScaledVolumeIff | src/arbitrage/entry.rs:41-97 | no future level is ever filled beyond volume × contract size iff the contract size is one |
| EntryArbitrage.DoEntry | src/arbitrage/entry.rs:8-158 | the loop in place is the proved run, sorted sides or not, and the result is built from it with what the search found |
| ExitArbitrage.FillBounds | src/arbitrage/exit.rs:42-43 | a fill is within the open quantity and both levels, and uses one of the three up or the future level's scaled share |
| ExitArbitrage.TurnProgresses | src/arbitrage/exit.rs:79-89 | every turn passes a level or takes a fixed least quantity from the current future level, so the loop ends although a scaled level shrinks geometrically |
| ExitArbitrage.ExitConserves | src/arbitrage/exit.rs:42-92 | both order lists and `executed` agree with what the levels gave; no level gives more than its volume; no more than requested is executed; `completed` iff less than the residual is open |
| ExitArbitrage.ExitOrdersFollowLevels | src/arbitrage/exit.rs:45-77 | both order lists have the prices of levels, in the levels' order and one order for a level at most |
| ExitArbitrage.ExitProfits | src/arbitrage/exit.rs:36-77 | what the spot orders sell for exceeds what the future orders cost by at least the percentage, up to float precision on the executed quantity |
| ExitArbitrage.ExitIsMaximal | src/arbitrage/exit.rs:27-40 | the loop ends only with a side used up, the request closed, or no remaining pair that gains enough; this needs no condition on volumes |
| ExitArbitrage.ExitPrices | src/arbitrage/exit.rs:94-107 | the result's price pair has the future level that is bought and the spot level that is sold, at the least gain that reaches the percentage; it is zero iff no pair reaches it |
| ExitArbitrage.ScaledVolumeIff | src/arbitrage/exit.rs:34-82 | no future level is ever filled beyond volume × contract size iff the contract size is one |
| ExitArbitrage.DoExit | src/arbitrage/exit.rs:7-111 | the loop in place is the proved run, sorted sides or not, and the result is built from it with what the search found |
| OrderStream.NewerIsSuffix | src/exchange/catch.rs:33-38 | filtering by number gives exactly the stream's suffix after that number |
| OrderStream.StepGood | src/exchange/catch.rs:28-67 | every push, call and resumption keeps each consumer at an exact prefix of the stream and each parked consumer's waker registered or fired |
| OrderStream.EveryOrderOnce | src/exchange/catch.rs:28-67 | in every interleaving each consumer has received exactly the stream up to its last number, in order, with no gap or repeat; it is woken only when there is something new |
| OrderStream.NextDelivers | src/exchange/catch.rs:28-51 | a call returns with the whole rest of the stream whenever there is something newer, and otherwise leaves a fresh waker and keeps what the consumer has |
| OrderStream.ResumeDelivers | src/exchange/catch.rs:53-66 | a woken consumer receives the whole rest of the stream; until then it stays as it is |
| OrderStream.NextPushWakesAll | src/exchange/mexc/private/watch.rs:207-220 | the next push fires every parked consumer's waker |
| OrderStream.Catch.Push | src/exchange/mexc/private/watch.rs:208-215 | in place, the producer numbers and stores the order and takes all wakers |
| OrderStream.Catch.Collect | src/exchange/catch.rs:55-66 | the filtering loop returns the newer orders and the current number |
| OrderStream.Catch.Next | src/exchange/catch.rs:28-51 | in place, `next` answers at once when there is something newer, and otherwise only registers a waker |

## Left out

- Connections, HTTP, TLS, JSON and protobuf parsing, and logging: messages and snapshots are parsed inputs, and whether a message's levels parse is part of the event.
- The HTTP limiter waits inside a snapshot request: they only delay the answer.
- A Binance snapshot request that never gets a recent answer: it is no event, because the handler stays suspended.
- Binance waiters: they are served as Gate's are, and the queue lemmas are about Gate.
- `connect` and its counter, which reports success after a failed connection.
- A failed send in `watch` or `unwatch` after the request was built: it returns an error and leaves the maps as modelled.
- Gate's message log, breakpoint and saved dump: only the bid set is modelled.
- EveryRunIsSafe: the exchange's ids start at 2, because 0 and 1 are the book's own states.
- TruthfulMessagePanicsIff: assumes that the exchange lists no level of quantity zero at the next id, because a message cannot tell such a level from an absent one.
- FindMaxPrice: exact reals and positive prices; float rounding of the threshold and of the excess, and infinite gains from a price of zero, are not modelled.
- DoEntry: exact reals; 28-digit decimal rounding and conversions to floats are not modelled, nor contract sizes above 1 or not above 0, where the loop's unscaled subtraction can make volumes negative.
- DoExit: the same two limits.
- TokensAreConserved: parameters stay fixed and memory is sequentially consistent; reconfiguration between a thread's steps and weaker orderings are not modelled.
- TokensBetween: the same, as for `SharedWindowBound` and `SharedWindowIff`.
- SlidingWindowBound: calls that do not overlap; `SharedWindowBound` is about those that do.
- DocumentedWindowIff: the same; `SharedWindowIff` is about calls that overlap.
- WaitHintIsExact: calls that do not overlap; under interleaving only the hint's end is bounded, by `NothingOverflows`.
- MaybeRefill: requires that the sums fit 64 bits, which `NothingOverflows` bounds; wrap-around or a debug panic beyond that is not modelled.
- TryWaitN: the same.
- SyncTime: requires that the monotonic clock has run for at least the phase; whether an earlier instant can be represented depends on the platform. `SetAlignment` and `Build` likewise.
- Perform: references between books are positions in a list of all books, so that a book is never freed.
- `OrderCatch`'s removal from its client's pending map when it is dropped.
- MEXC's public book: each of its messages replaces levels of a book without a snapshot or ids to connect.
- Accounts: balances and an order queue under one lock, which the modelled parts neither read nor write.
- The monitor's percentages, the asset cross product and the client pools: each is computed from books and lists in one pass, without a protocol.
- The channels, the clock wrappers and the `select!` macro: the steps of the state machines stand for what they schedule.
