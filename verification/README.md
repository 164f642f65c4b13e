# A verified model of the relay and of its Dart lexer

The relay joins two HTTP requests, an upload and a download, through an unbuffered pipe,
and carries signaling messages and presence between devices. This project models the
parts of it whose guarantees hold only across several functions and interleavings, and
proves those guarantees. It also models the hand-written lexer and map parser of
`tools/provider_to_arb.py`. `dafny verify dfyconfig.toml` checks everything.

## How it is built

| files | what they hold |
|---|---|
| `Common.dfy`, `Pipe.dfy` | errors and bytes; Go's `io.Pipe` as two stored close errors, the first one on each side staying |
| `Pump.dfy` | the copy loop as a method over a scripted source, sink and deadline, the function it computes, and what that function guarantees |
| `Registry.dfy` | `Stream` and `Registry` as classes with their maps, flags and loops; the quota accounts as values |
| `Link.dfy`, `LinkInvariant.dfy` | one stream with any number of requests on it: a program counter per handler, one step per atomic action of the source, and the invariant each step keeps |
| `Relay.dfy`, `Liveness.dfy`, `LiveStreams.dfy` | the registry with every stream ever created, all runs of it, the safety theorems, why handlers finish and slots come back, and what Close and Release do to a stream in use |
| `Dispatch.dfy`, `Causes.dfy` | over all runs: which device gets which end of a stream, and why each request is answered as it is |
| `Session.dfy`, `Hub.dfy`, `Presence.dfy`, `Server.dfy` | the bounded outbound queue, the hub's two maps and its loops, all of them together as a transition system with a ghost view per session, and the server methods that join hub, sessions and streams |
| `Privacy.dfy`, `Views.dfy`, `FailedWelcome.dfy` | over all runs: who is ever told about whom, what a view is made of and which sessions are open, and when a view stops being exact |
| `Bucket.dfy`, `PairLimiter.dfy`, `BandwidthPool.dfy` | a token bucket in integer credit, the pairing limiter and the shared bandwidth pool, each as classes and as runs of calls |
| `BudgetThreshold.dfy`, `PoolBooks.dfy` | the runs that exceed the shared budget and the exact condition under which none does; the pool's objects following one account per device |
| `DartLexer.dfy`, `MapParser.dfy`, `MapPrinter.dfy`, `MapGrammar.dfy` | the index loops of the lexer and parser, the function on suffixes each computes, balanced text, a printer written independently of the parser, and a grammar into which every text whatever is split |

Where the source updates an object or loops over an index, there is a class or a loop with
invariants, and its contract equates the new state or the result with a function. The
runs in `Relay.dfy`, `Presence.dfy` and `PairLimiter.dfy` are made of the same functions,
and in `PoolBooks.dfy` the pool's objects are shown to follow the accounts that the runs of
`BandwidthPool.dfy` speak of, all devices at once, so what is proved of all runs is about
what the methods do. The
handlers of one stream run concurrently and are therefore steps, not methods; the loop
decisions they take (`Pump.AfterRead`, `Pump.AfterChunk`) are the ones the verified loop
takes.

## What is assumed

- `newID` never repeats an id.
- A network, deadline or limiter failure is never `io.EOF`; only a body read to its end reports that.
- `io.Pipe` and `golang.org/x/time/rate` behave as their documentation says. The bucket counts integer credit (nanoseconds, or bytes times nanoseconds), so its rounding is not modelled.
- A hub operation and the sends it implies are one step, although the sends happen after the hub's lock is dropped (`relay/internal/signal/server.go:283-285`). In the pool, touching the entry and reserving at the limiter are one step with two clock readings.
- The configuration has passed its validation: at least one pairing request per minute, a rate limit of at least zero.
- Sweep and ReleaseDevice read the attach flags while handlers set them. The methods of `Registry.dfy` take the claims that happen meanwhile, before each look, as an argument, and their contracts hold for all of them. In `Relay.dfy` one call is any number of partial scans, each on streams that qualify at that moment; closing a stream afterwards is two further steps, at any later time.

## What the code does not do

- The comment on `Stream.Close` says that it unblocks whichever side is still waiting. It wakes a handler if and only if the handler is not blocked elsewhere: in the wait for an end nobody has attached to, in a read of the request body, or in a write of the response (`CloseWakesAllBut`). `ClosedWhileWaiting`, `ClosedWhileReading` and `ClosedWhileWriting` are runs that get to each of the three.
- A second attach to one end fails and also takes the live stream down, if it is still registered (`LoserRemovesIff`). `SecondAttachAborts` is a run in which the upload is answered ok, the receiver has written every byte, and it still ends in an error. Whether a transfer survives is decided by one thing: once Close is complete the receiver ends cleanly if and only if it had read the end of the upload before (`ClosedFateIff`), and it reads that end if and only if the sender's clean close came before Close's and Close is not complete when the receiver looks (`DeliveredIff`).
- Presence is not exact in every run: when a welcome cannot be written the device is unregistered and nobody is told. `FailedWelcomeLeavesAStaleEntry` is such a run. A failed welcome leaves exact views exact if and only if its session had been replaced, or no open session that has subscribed is mutual with the device (`HarmlessIff`), and every false entry in every run comes from such a failed welcome (`FalseEntriesAreBlamed`).
- One budget per device is kept in all runs in which no open reader goes the idle time without a byte if and only if nothing can be read or an entry is kept long enough: at least as long as the burst and one read per open stream take, and at least as long as the lag between two clock readings and one read (`BudgetThreshold`). One read is the smaller of the caller's buffer and the burst. `LateReadBreaks` and `AllAtOnceBreaks` are the runs that exceed the budget otherwise. Times are byte-nanoseconds, so in the nanoseconds of a clock the threshold is exact to within one. With the deployed ten minutes, a copy buffer of 32 KiB and a lag of at most 599 seconds, 599 open streams of one device are safe at any rate; up to 32 KiB a second 599 is the most, at a mebibyte a second 19168 is (`DeployedIdle`, `DeployedStreams`). When readers may idle, no idle time is long enough (`UnfedThreshold`, `IdleReaderDoublesTheBudget`).
- Eviction of a pairing entry is observable if entries are kept too short a time; `EvictionThreshold` is the exact bound for every lag between the two clock readings of a request.
- The docstring of `parse_map_entries` says that adjacent literals are joined. They are only with a `+` between them: otherwise the second is left for the next turn, which reads it as a key, whatever follows (`AdjacentLiteralsAreJoinedIff`, `AdjacentLiteralsAreNeverJoined`).
- `parse_map_entries` indexes beyond the end of its input if and only if the text is passages it gets past, followed by a key whose colon has nothing but space behind it (`CrashesIff`).
- `find_matching` knows string literals but not comments. `CommentedBracketCounts` is an opening bracket matched by one inside a comment; the text found is exactly the text balanced outside string literals, comments counted like any other text (`MatchIsBalanced`).

## Model

| member | source | states |
|---|---|---|
| `Pipe.ClosedNeverReadsEOF` | relay/internal/stream/registry.go:113-125 | once both halves have been closed with an error, no later close by either handler makes a read look like a clean end of file |
| `Pump.Pump` | relay/internal/stream/handler.go:222-253 | for any reads, failing writes and failing deadlines, the bytes appended to the sink, the total and the way the loop ends are those of `Copy` |
| `Pump.WritesAPrefixWithinTheCap` | relay/internal/stream/handler.go:222-253 | whatever fails, what was written is a prefix of what the source handed out and within the cap; a clean end counts every byte |
| `Pump.CopiesExactly` | relay/internal/stream/handler.go:222-253 | with nothing else failing, for every splitting of the reads, the loop writes the whole source and ends cleanly if and only if it fits under a positive cap, else it stops as too large with a proper prefix |
| `Pump.EndsForAReason` | relay/internal/stream/handler.go:222-253 | the loop ends well only at the turn at which the source reports its end, with everything handed out till then written; it fails only at a turn whose deadline, cap, write or read does, looked at in this order, with that error, and with what was written and counted before |
| `Pump.ChainedCapNeverTripsTwice` | relay/internal/stream/handler.go:157-204 | a second loop fed by a first with the same cap never trips it, and copies everything if the pipe ends with end of file |
| `Registry.AdmitKeepsQuota` | relay/internal/stream/registry.go:168-185 | admitting a stream keeps every account equal to the number of its owner's registered streams, positive and within the cap |
| `Registry.RemoveKeepsQuota` | relay/internal/stream/registry.go:199-275 | removing any set of registered streams keeps the accounts exact |
| `Registry.RefundAtOnce` | relay/internal/stream/registry.go:264-269 | the single subtraction after ReleaseDevice's scan leaves the accounts that removing the streams one by one would |
| `Registry.TheGoneAreClosed` | relay/internal/stream/registry.go:236-238 | of the streams a scan takes, each not yet closed gets the error not found in each half that has none; all others keep their pipe as it is |
| `Registry.Stream.ClaimSender` | relay/internal/stream/registry.go:78-82 | of all attempts on the sending end only the first wins, and it alone closes the ready channel |
| `Registry.Stream.ClaimReceiver` | relay/internal/stream/registry.go:90-94 | the same for the receiving end |
| `Registry.Stream.RoleFor` | relay/internal/stream/registry.go:102-111 | a device is the sender if and only if the stream names it as its sender, the receiver if and only if it is named as the receiver and not as the sender, else it is refused |
| `Registry.Stream.Close` | relay/internal/stream/registry.go:120-125 | the first call stores the error in each half that has none yet, later calls change nothing |
| `Registry.Table.Create` | relay/internal/stream/registry.go:168-185 | refused without change when there is no id or the owner is at the cap, else the new stream is filed and charged to the owner |
| `Registry.Table.Release` | relay/internal/stream/registry.go:200-213 | removes, refunds and closes a registered stream; a stream already removed is left exactly as it is |
| `Registry.Table.Sweep` | relay/internal/stream/registry.go:219-240 | whatever ends are claimed while it scans: what goes had expired with neither end claimed when it began, what stays has not expired or has an end claimed now; what goes is refunded and closed, its number is returned, no other pipe changes |
| `Registry.Table.ReleaseDevice` | relay/internal/stream/registry.go:249-275 | whatever ends are claimed while it scans: every stream the device owned is afterwards gone or claimed at both ends, none that was claimed at both ends at the beginning is taken, those taken are refunded and closed, no other pipe changes |
| `LinkInvariant.StepKeeps` | relay/internal/stream/handler.go:138-253 | every step of every handler, of removal and of Close keeps the stream invariant: who holds which end, which bytes are where, what each stored close error means |
| `LinkInvariant.ClaimWon` | relay/internal/stream/registry.go:78-99 | claiming a free end keeps the invariant, so nobody else holds it |
| `LinkInvariant.HandOffKeeps` | relay/internal/stream/handler.go:222-253 | one rendezvous of a blocked write with a blocked read keeps the byte accounts of both loops |
| `LinkInvariant.ReleaseKeeps` | relay/internal/stream/registry.go:200-213 | so does a handler's Release, whether it lost, gave up or finished |
| `Relay.StepKeepsGood` | relay/internal/stream/registry.go:141-275 | every step of the whole relay keeps the quota exact, every stream's invariant, and streams filed exactly while not torn down |
| `Relay.RunStaysGood` | relay/internal/stream/registry.go:141-275 | so this holds at every moment of every run from the empty registry |
| `Dispatch.RequestIff` | relay/internal/stream/handler.go:81-102 | a request gets to a handler if and only if its stream is registered and it is a POST of the stream's sender or a GET of its receiver who is not the sender; then it is at the sending or the receiving end accordingly |
| `Dispatch.EndsBelongToTheirDevices` | relay/internal/stream/handler.go:81-102 | at every moment of every run whoever is at the sending end of a stream, removed or not, came by a POST of the device it was created for as sender and has that request's body, whoever is at the receiving end came by a GET of its receiver |
| `Relay.QuotaConserved` | relay/internal/stream/registry.go:164-275 | at every moment a device's account is the number of registered streams it owns, with no zero entries and never above the cap |
| `Relay.RemovedOnce` | relay/internal/stream/registry.go:199-275 | a removed stream is never registered again, so over a run it is refunded at most once, whichever of Release, Sweep and ReleaseDevice came first |
| `Relay.CleanEndMeansComplete` | relay/internal/stream/handler.go:157-214 | a receiver that ends without aborting has written exactly the whole upload body, whose end the sender had reached, and the sender was told so |
| `Dispatch.DownloadIsTheUpload` | relay/internal/stream/handler.go:157-214 | so what a request at the receiving end that ends cleanly has written is the whole body of the POST of the stream's sender, which was answered ok |
| `Relay.HonestAcknowledgement` | relay/internal/stream/handler.go:157-179 | a sender answered ok with N: N is the length of its body and all of it has been taken out of the pipe by the one receiver |
| `Relay.PrefixAndTwoBuffers` | relay/internal/stream/handler.go:222-253 | at every moment the response is a prefix of the upload and at most two copy buffers have been read and not written |
| `Relay.CapTripsOnlyAtTheSender` | relay/internal/stream/handler.go:235-237 | no more than the cap is ever relayed, and the receiver's own check passes on every chunk the pipe hands it |
| `Relay.EachEndOnce` | relay/internal/stream/registry.go:78-99 | at most one request obtains each pipe half, obtaining one means the other end was claimed, and no ready channel is closed twice |
| `Relay.NoSuccessAlone` | relay/internal/stream/registry.go:127-139 | if the other side never came or gave up, a receiver ends in an error and so does a sender with a body |
| `Causes.EveryAnswerHasItsCause` | relay/internal/stream/handler.go:138-253 | in every run, an answer of a request goes back to one step that is a cause of just that answer: a second attach, the timer or the client's context, a failed deadline, read or write, the cap, what the other half was closed with, or the end of file |
| `Causes.CauseDecidesTheAnswer` | relay/internal/stream/handler.go:138-253 | and after such a step, whatever else happens, the request is answered just that |
| `Causes.FirstCloseIsStored` | relay/internal/stream/handler.go:158-205 | the first close of each half of the pipe is what is stored: the error of the loop that used it, end of file or closed pipe if it had none, or not found by Stream.Close |
| `Causes.OnlyWritesReachTheResponse` | relay/internal/stream/handler.go:238 | a step adds to a response the chunk being written, as much of it as a failing write lets through, or nothing |
| `Relay.UndisturbedIsUnfaulted` | relay/internal/stream/handler.go:138-214 | a run without a second attach, a failed attach, an I/O failure, the cap or a scan taking the stream leaves it without a fault, teardown included |
| `Relay.FinishedUploadIsNotAborted` | relay/internal/stream/handler.go:169-191 | in such a run the stream stays registered and its read half open until the receiver has read end of file, and every handler that ends, ends cleanly |
| `Relay.ClaimedIsUndisturbed` | relay/internal/stream/registry.go:219-263 | no scan takes the stream if no Sweep after its expiry finds it without a claim and no ReleaseDevice of its owner finds it with an end unclaimed; all other scans may happen at any time |
| `Relay.EveryStreamHasAReclaimer` | relay/internal/stream/handler.go:138-191 | every registered stream is due to Sweep (no end claimed), to its receiver's handler, or to its sender's handler still waiting for the receiver |
| `Relay.SweepEmpties` | relay/internal/stream/registry.go:219-240 | once all handlers have answered and the clock has passed every expiry, one Sweep takes everything and both maps are empty |
| `Liveness.ProductiveDescends` | relay/internal/stream/handler.go:222-253 | every step except a new request and a read that brings nothing uses up part of a natural measure of the stream |
| `Liveness.NobodyIsStuck` | relay/internal/stream/registry.go:127-139 | while a handler has not answered some productive step is possible: its own, its partner's, or the rest of Close |
| `Liveness.BusyIsBounded` | relay/internal/stream/handler.go:138-253 | no sequence of productive steps is longer than that measure, so handlers finish |
| `Liveness.SlotsAlwaysComeBack` | relay/internal/stream/registry.go:215-240 | from every moment of every run, without new requests, a path of finishing handlers, time and one Sweep leads to empty maps |
| `LiveStreams.CloseWakesAllBut` | relay/internal/stream/registry.go:113-139 | once a stream has been closed, a handler that has not answered can go on without its timer, its client or the network if and only if it is not waiting for an end nobody has attached to, reading the request body or writing the response |
| `LiveStreams.ClosedWhileWaiting` | relay/internal/stream/registry.go:127-139 | a run in which the owner leaves, the stream is removed and closed, and its sender still waits |
| `LiveStreams.ClosedWhileReading` | relay/internal/stream/handler.go:233 | for every body a run in which a second request is refused, the stream is removed and closed, and its sender is still blocked in the read of its request body |
| `LiveStreams.ClosedWhileWriting` | relay/internal/stream/handler.go:238 | for every body of up to one buffer such a run in which the receiver is still blocked in the write of its response |
| `LiveStreams.SecondAttachAborts` | relay/internal/stream/handler.go:139-147 | for every body of up to one buffer a run in which the upload is answered ok, all bytes are written, a second request is refused, and the receiver then ends in an error |
| `LiveStreams.DeliveredIff` | relay/internal/stream/handler.go:173-179 | after an upload answered ok the receiver, at the head of its loop or blocked in its read, finds the end if and only if the sender's clean close came first and Close is not complete |
| `LiveStreams.ClosedFateIff` | relay/internal/stream/registry.go:113-125 | once Close is complete, however the run goes on, a receiver that ends does so cleanly if and only if it had already read the end of the upload |
| `Session.StepKeepsOk` | relay/internal/signal/session.go:53-108 | accepted messages are always those written, the one in hand and the queue, in order; the queue is within its bound; nothing is accepted after a refusal |
| `Session.NoGap` | relay/internal/signal/session.go:91-108 | over every run what is written is a prefix of what was accepted, with at most 33 messages to come |
| `Session.AcceptedIsWritten` | relay/internal/signal/session.go:65-106 | in every run a message sent to an open session with fewer than 32 waiting is the last one written, behind all accepted before, once the writer has gone through the queue |
| `Session.RefusedForGood` | relay/internal/signal/session.go:53-72 | after the first refused message nothing is ever accepted |
| `Session.PushTakesIff` | relay/internal/signal/session.go:59-71 | the same of the mailbox as a value, which every run and every server method goes by |
| `Session.Session.Send` | relay/internal/signal/session.go:53-72 | a message is appended to the queue and reported as accepted if and only if the session is open and fewer than 32 wait; otherwise nothing is queued and the session is closed afterwards |
| `Session.Session.Close` | relay/internal/signal/session.go:83-88 | closes, any number of times, and touches no queued message |
| `Session.Session.WriteNext` | relay/internal/signal/session.go:98-106 | takes the oldest message; a failed write closes the session and ends the writer |
| `Hub.Directory.Register` | relay/internal/signal/hub.go:34-41 | the newcomer is filed under its device, nothing else changes, and the replaced session is returned |
| `Hub.Directory.Unregister` | relay/internal/signal/hub.go:46-58 | succeeds exactly for the device's current session; then its session and list are gone and the watchers returned are exactly its connected mutual peers, each once |
| `Hub.Directory.MutualWatchers` | relay/internal/signal/hub.go:143-154 | the loop returns each connected mutual peer exactly once |
| `Hub.Directory.WantedPeers` | relay/internal/signal/hub.go:107-112 | a device is kept if and only if it is listed, is not the empty name and is not the device itself |
| `Hub.Directory.AnnounceMutual` | relay/internal/signal/hub.go:115-129 | the loop tells the subscriber about each peer it is now mutual with, and each of those that is connected about the subscriber |
| `Hub.Directory.AnnounceLost` | relay/internal/signal/hub.go:131-136 | the loop adds an offline notice for each former watcher that is not mutual any more, which completes the implied set |
| `Hub.Directory.Subscribe` | relay/internal/signal/hub.go:94-139 | for a connected device the list stored is exactly the devices named but the empty name and itself, all other lists are unchanged, and the notifications returned are exactly those the change implies, each once; for any other device nothing changes |
| `Privacy.OnlyMutualIsTold` | relay/internal/signal/hub.go:12-15 | in every run, whatever presence message a session accepts in a step, its device and the device it is about named each other in their last subscribe messages, just before or just after |
| `Privacy.NothingToldAtFirst` | relay/internal/signal/session.go:37-47 | a session has been told nothing when it is registered |
| `Presence.StepKeeps` | relay/internal/signal/hub.go:34-139 | every hub step with its sends keeps: only registered devices hold a list, the newest session is the one held, and every open view is the truth plus stale entries |
| `Presence.PresenceIsExact` | relay/internal/signal/hub.go:88-154 | as long as no welcome has failed, an open session that has subscribed sees a device online exactly when it is registered and each of the two named the other in its last subscribe message |
| `Presence.RunKeepsNamed` | relay/internal/signal/hub.go:107-113 | in every run the list the hub holds for a device is what its last subscribe message named, and only registered devices have one |
| `Views.ViewIsWhatWasTold` | relay/internal/signal/server.go:283-285 | in every run a client's view is what the presence messages accepted since its last subscribe message say, in order, starting from what it saw before of the devices named in it |
| `Views.ViewBeforeSubscribing` | relay/internal/signal/server.go:283-285 | before its first subscribe message, starting from nothing |
| `Views.SubscriberIsShown` | relay/internal/signal/hub.go:107-136 | just after a subscribe message every connected device named in it that had named the subscriber is in its view and has the subscriber in its own; one not named is gone from its view, and the subscriber from that one's |
| `Views.OneOpenSessionPerDevice` | relay/internal/signal/server.go:163-182 | in every run an open session is the one the hub holds for its device, unless its welcome failed; replaced and torn down ones are closed |
| `Presence.FailedWelcomeLeavesAStaleEntry` | relay/internal/signal/server.go:176-178 | for any two devices a run after which one sees the other online although it is not connected |
| `FailedWelcome.HarmlessIff` | relay/internal/signal/server.go:176-178 | a failed welcome leaves all exact views exact if and only if its session had been replaced or no open session that has subscribed is among those a teardown would tell |
| `FailedWelcome.FalseEntriesAreBlamed` | relay/internal/signal/server.go:176-178 | in every run, a device seen online that is not registered, or with which there is no mutual naming, was dropped earlier by a failed welcome while this very session was due to be told |
| `Presence.NewestSessionWins` | relay/internal/signal/hub.go:30-58 | in every run the hub holds the session a device registered last, unless that very one is gone |
| `Presence.DeliverIsPushAll` | relay/internal/signal/server.go:283-285 | what a step of the transition system puts into a mailbox is what the server's sending loop puts there |
| `Server.Server.Admit` | relay/internal/signal/server.go:163-182 | the newcomer replaces and closes the old session; if the welcome fails it is unregistered and no other queue changes |
| `Server.Server.SendAll` | relay/internal/signal/server.go:283-285 | every session's mailbox takes exactly its own notifications, in order |
| `Server.Server.HandleSubscribe` | relay/internal/signal/server.go:272-286 | more than 256 peers are refused by a message to the session that sent them, without other effect; else the list stored is exactly the devices named but the empty name and the device itself, all other lists are unchanged, and each session is sent exactly what is implied for it |
| `Server.Server.Teardown` | relay/internal/signal/server.go:210-230 | whatever ends are claimed meanwhile: a replaced session's teardown changes no other session and no stream; the current one's unregisters it, tells each watcher once, removes and closes only streams of the device that lacked a claim, touches no other pipe, and leaves the device owning only streams claimed at both ends |
| `Server.Server.HandleStreamCreate` | relay/internal/signal/server.go:329-378 | the session is sent the one answer that applies, in the source's order of refusals, and the registry is as that answer says |
| `Server.Server.EachAnswerHasItsCause` | relay/internal/signal/server.go:335-376 | each refusal has exactly its cause, in the source's order, and leaves the registry unchanged; otherwise the answer names the new stream, whose sender and receiver are the asking device and the peer by the role asked for, charged to the asking device |
| `Bucket.TakeMovesZero` | relay/internal/limit/limit.go:182-186 | a charge moves the bucket's zero point by its cost after idle credit above the burst is lost, and the wait ends there |
| `Bucket.WindowBound` | relay/internal/limit/limit.go:182-209 | whoever charges, what may go ahead within a window costs at most the burst plus the window's length |
| `PairLimiter.Limiter.Allow` | relay/internal/limit/limit.go:43-56 | the answer and the new entries are those of the value-level limiter |
| `PairLimiter.Limiter.Sweep` | relay/internal/limit/limit.go:62-76 | exactly the entries last seen before the cut-off go, and their number is returned |
| `PairLimiter.EvictionIsUnobservable` | relay/internal/limit/limit.go:43-76 | for every sequence of calls on a monotone clock every answer equals that of a limiter that never evicts, if the rate is infinite or entries are kept as long as a full bucket takes, allowing for the lag between the two clock readings of a request |
| `PairLimiter.DeployedEvictionIsUnobservable` | relay/cmd/relayd/main.go:33 | 600 seconds suffice for every rate, with the two clock readings of a request up to 540 seconds apart |
| `PairLimiter.SoonerEvictionShows` | relay/internal/limit/limit.go:58-76 | for every lag and every shorter time a sequence of calls whose answers differ |
| `PairLimiter.EvictionThreshold` | relay/internal/limit/limit.go:58-76 | for every lag, eviction is unobservable if and only if the rate is infinite or the time kept reaches both the lag and one interval, and a full bucket and the smaller of the lag and one interval |
| `PairLimiter.OneReading` | relay/internal/limit/limit.go:43-52 | with one clock reading per request that time is what a full bucket takes |
| `PairLimiter.PairingBound` | relay/internal/limit/limit.go:32-56 | for every device and window, with entries kept that long, at most the configured number and one more for each 60 000 000 000 ns divided by that number are admitted |
| `PairLimiter.RateIsGranted` | relay/internal/limit/limit.go:43-56 | after any calls and sweeps, a device not seen for 60 seconds has the configured number of requests admitted at one moment, and the next one if and only if 60 000 000 000 ns divided by that number have passed |
| `BandwidthPool.SharedBudget` | relay/internal/limit/limit.go:102-209 | for any readers of one device interleaving reads, opens, closes and sweeps, with every open reader fed and entries kept long enough, what is returned in a window costs at most the burst plus the window |
| `BandwidthPool.SharedBudgetInBytes` | relay/internal/limit/limit.go:182-209 | so in any number of seconds at most the configured bytes for each and one second's worth, at most 1 048 576, are returned |
| `BandwidthPool.EvictedIsRecovered` | relay/internal/limit/limit.go:152-170 | when a fed device is evicted it has no open reader and its bucket has filled up again |
| `BandwidthPool.ReadWaits` | relay/internal/limit/limit.go:199-208 | a read waits no longer than the reads then in flight take, its own included, each at most the smallest of the buffer, the configured bytes and 1 048 576, at the configured rate |
| `BudgetThreshold.BurstAtOnce` | relay/internal/limit/limit.go:182-186 | a device without open streams and entry has one second's worth, at most 1 048 576 bytes, returned at once |
| `BudgetThreshold.DeployedIdle` | relay/cmd/relayd/main.go:33 | with ten minutes and the copy loop's 32 KiB buffer, entries are kept long enough if and only if the burst and one read per open stream fit into ten minutes at the configured rate, and the lag and one read do too |
| `BudgetThreshold.DeployedStreams` | relay/internal/stream/handler.go:20 | so, for a lag of at most 599 seconds, 599 open streams of a device are safe at any rate, no more are up to 32 KiB a second, and exactly 19168 at a mebibyte a second |
| `BudgetThreshold.BudgetThreshold` | relay/internal/limit/limit.go:102-209 | the budget is kept in all fed runs if and only if nothing can be read or entries are kept as long as the burst and one read per stream take, and as long as the lag and one read |
| `BudgetThreshold.LateReadBreaks` | relay/internal/limit/limit.go:142-170 | a fed run that exceeds the budget when the idle time is shorter than the lag and one read |
| `BudgetThreshold.AllAtOnceBreaks` | relay/internal/limit/limit.go:199-208 | for any number of streams a fed run that exceeds the budget when the idle time is shorter than the burst and one read per stream: the burst is read, all read once more at once, all close, a sweep, a new stream |
| `BudgetThreshold.UnfedThreshold` | relay/internal/limit/limit.go:152-170 | without feeding, the budget is kept in all runs if and only if nothing can be read at all |
| `BudgetThreshold.IdleReaderDoublesTheBudget` | relay/internal/limit/limit.go:142-170 | with a reader that idles, a run in which two bursts of one device return at one moment |
| `PoolBooks.OpenReader` | relay/internal/limit/limit.go:127-150 | wrapping a source through the pool's objects is the account's Wrap, and the accounts of all other devices still describe theirs |
| `PoolBooks.ReadBytes` | relay/internal/limit/limit.go:194-209 | a read that brought bytes is the account's Read, returns at the moment the account says, and leaves all other devices' accounts as they are |
| `PoolBooks.CloseReader` | relay/internal/limit/limit.go:188-192 | a reader that is dropped leaves its account's table and nothing else |
| `PoolBooks.SweepPool` | relay/internal/limit/limit.go:153-170 | the pool's Sweep is the Sweep of every account |
| `BandwidthPool.Pool.Wrap` | relay/internal/limit/limit.go:127-150 | no reader without a limit; else one on the device's limiter, which is new and full only if there was none; other devices untouched |
| `BandwidthPool.Pool.Touch` | relay/internal/limit/limit.go:142-148 | renews the device's entry if it has one and never makes one |
| `BandwidthPool.Pool.Sweep` | relay/internal/limit/limit.go:153-170 | exactly the entries last seen before the cut-off go, and their number is returned |
| `BandwidthPool.LimitedReader.Ask` | relay/internal/limit/limit.go:195-198 | asks for the smallest of the buffer, the configured bytes and 1 048 576 |
| `BandwidthPool.LimitedReader.Deliver` | relay/internal/limit/limit.go:199-208 | nothing is charged or touched for an empty read, else both, on the reader's own limiter |
| `DartLexer.UnescapeDartString` | tools/provider_to_arb.py:70-91 | the loop computes `Unescape`, and so returns the text of every spelling |
| `DartLexer.SpellingIff` | tools/provider_to_arb.py:70-91 | a body is well quoted and unescapes to a text if and only if it spells it: each character as itself unless it is the quote or a backslash, behind a backslash unless it is n, r or t, or as `\n`, `\r`, `\t` for line feed, carriage return and tab |
| `DartLexer.TrailingBackslashStays` | tools/provider_to_arb.py:75-90 | a backslash at the very end stands for itself |
| `DartLexer.UnescapeEscape` | tools/provider_to_arb.py:70-91 | escaping quotes and backslashes gives a well-quoted body that unescapes to the text it came from |
| `DartLexer.ExtractStringLiteral` | tools/provider_to_arb.py:125-142 | the loop returns the literal at an index and where it ends, or nothing, also for an index beyond the end |
| `DartLexer.ExtractIsRecognition` | tools/provider_to_arb.py:125-142 | a literal is split off if and only if the text is one of the two quotes, a body in which every backslash has its character and that quote is never bare, the quote, and the rest |
| `DartLexer.SkipWsAndComments` | tools/provider_to_arb.py:145-160 | the loop stops where `Skip` does, at the end for an unclosed comment, and leaves an index beyond the end as it is |
| `DartLexer.FindMatching` | tools/provider_to_arb.py:163-183 | the loop returns the index `Match` gives, or -1, also for an index beyond the end |
| `DartLexer.MatchIsBalanced` | tools/provider_to_arb.py:163-183 | from an opening bracket an index is found if and only if the text up to it is that bracket, text balanced outside string literals, and the closing bracket; so -1 exactly when there is no such index |
| `DartLexer.MatchPasses` | tools/provider_to_arb.py:163-183 | balanced text is passed over at any depth |
| `DartLexer.CommentedBracketCounts` | tools/provider_to_arb.py:163-183 | behind any balanced text, the closing bracket inside a comment is the match |
| `MapParser.CollectParts` | tools/provider_to_arb.py:224-239 | the loop reads literals as long as a `+` follows, and returns where it stopped |
| `MapParser.NextComma` | tools/provider_to_arb.py:241-250 | the loop stops at the next comma outside a literal |
| `MapParser.SkipHead` | tools/provider_to_arb.py:213-222 | past the parameter list and arrow of a lambda, or nothing if malformed |
| `MapParser.TakeKey` | tools/provider_to_arb.py:203-216 | one turn from the key on: stop, skip, entry, or the index error |
| `MapParser.ParseMapEntries` | tools/provider_to_arb.py:186-258 | the parser's loop computes `ParseEntries`, terminating by the remaining length |
| `MapPrinter.GapIsSkipped` | tools/provider_to_arb.py:145-160 | any mixture of spaces, tabs, carriage returns, line feeds, line comments and block comments is invisible |
| `MapPrinter.UnclosedCommentsAreSkipped` | tools/provider_to_arb.py:151-158 | a comment that nothing ends is skipped with all that follows |
| `MapPrinter.ItemIsRead` | tools/provider_to_arb.py:203-256 | one printed entry, plain or a lambda, in any layout, is read as its locale and its whole text |
| `MapPrinter.ItemsAreRead` | tools/provider_to_arb.py:195-256 | printed entries before any rest are read in order, and parsing goes on with the rest |
| `MapPrinter.ParsingUndoesPrinting` | tools/provider_to_arb.py:186-258 | for every list of entries in every layout the parser returns what was printed, the last entry winning for a repeated locale |
| `MapPrinter.PairsRoundTrip` | tools/provider_to_arb.py:186-258 | whatever pairs are written, in whatever spelling, pieces and layout, the parser returns for each locale the text written last and no other locale; with distinct locales exactly the pairs |
| `MapPrinter.EveryPairHasASpelling` | tools/provider_to_arb.py:70-91 | every locale and text, cut into pieces in any way, can be so written in every layout |
| `MapPrinter.NoKeyStopsTheParser` | tools/provider_to_arb.py:203-206 | behind any entries, what is neither a comma nor a complete literal ends the parsing with the entries so far |
| `MapPrinter.NoColonStopsTheParser` | tools/provider_to_arb.py:207-210 | so does a key with no colon behind it |
| `MapPrinter.UnclosedParametersStopTheParser` | tools/provider_to_arb.py:214-218 | so does a value that opens a bracket which no balanced text closes |
| `MapPrinter.MissingArrowStopsTheParser` | tools/provider_to_arb.py:219-222 | so does a parameter list with no arrow behind it |
| `MapPrinter.AdjacentLiteralsStopTheParser` | tools/provider_to_arb.py:234-238 | behind any entries, a literal beside another without `+` is not joined: the value ends before it and parsing stops |
| `MapPrinter.AdjacentLiteralsAreJoinedIff` | tools/provider_to_arb.py:190 | whatever follows, that turn reads the first literal alone, which is the two joined if and only if the second is empty, and parsing goes on from the second |
| `MapPrinter.AdjacentLiteralsAreNeverJoined` | tools/provider_to_arb.py:190 | so with no colon behind the second, the map returned holds the two joined if and only if the second is empty |
| `MapPrinter.DanglingKeyCrashes` | tools/provider_to_arb.py:211-214 | behind any entries, a key whose colon is followed only by space raises the index error |
| `MapGrammar.UnreadableValuesAreLeftOut` | tools/provider_to_arb.py:241-250 | a value that does not begin with a complete literal, empty, behind an unterminated quote or any other, lambda or not, is left out up to the next comma outside a literal, and what follows is read |
| `MapGrammar.EveryTextIsRead` | tools/provider_to_arb.py:186-258 | every text whatever is passages (commas, entries, keys with unreadable values) before a place where the parser ends, and exactly the entries among them are returned unless it ends with a crash |
| `MapGrammar.CrashesIff` | tools/provider_to_arb.py:211-214 | the parser indexes beyond the end if and only if the text is passages followed by a key whose colon has only space behind it |

## Left out

- HTTP, WebSocket, JSON, TLS, logging and metrics: requests and messages are steps or decoded values.
- Authentication (Ed25519, SHA-256, base64, token comparison): the authenticated device id is an input.
- Rejection replies of the handshake, ping loops and the text of error messages: connections end, time out or fail as nondeterministic steps.
- Handling of relayed messages: one call of the pairing limiter, one lookup and one send, each modelled, with nothing to prove across them.
- serveSender and serveReceiver as methods: they block on each other, so they are the steps of `Link.dfy`, and aliasing of their stream with the registry's is the shared `Link` value.
- `SlotsAlwaysComeBack`: gives one path from every moment; that every path without new requests is bounded is `BusyIsBounded`.
- `NobodyIsStuck`: a handler waiting for its peer is taken to time out, and a stalled read of the body or write of the response to end by its idle deadline, the clock being what ends these waits.
- A reader that returns no bytes and no error for ever: such reads are allowed and not counted as progress.
- Integer widths: totals and counters are unbounded integers, a stream of 2^63 bytes being out of reach.
- The registry's `newID`, hub counts and limiter sizes: one-line getters and random bytes.
- The relay client in Dart, the Flutter interface, platform code and installers: not part of this model.
- The regular expressions of the Python tool (method search, interpolation, parameter aliases) and its file handling: heuristics over a library.
