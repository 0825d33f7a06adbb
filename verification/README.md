# Verification of the tunnel core of android-udp-bridge

This project models the four stateful parts of the repository and proves
properties of them with Dafny 4.11.  `dafny verify dfyconfig.toml` checks it all.

**The relay** (`Environment`, `RelayModel`, `RelayAccounting`, `RelayBounds`,
`RelayDelivery`, `RelayEnding`, `RelayRecovery`, `ForwardBuffer`, `Connection`).  One accepted connection is
pumped between a client socket and the direct-tcpip channel of RFC 4254, section
7.2, through two growable buffers and one shared 4096-byte scratch array.
`ForwardBuffers.ForwardBuffer` and `Connections.Connection` keep the program's
form: a heap block with an end and an offset, an overlapping `memmove`, exact-size
`realloc`, partial writes, nested loops with their breaks.  They are proved equal
to functions on byte sequences, and the theorems are about those functions.  Both
peers, `select`, `realloc` and the flag `port_forward_running` are an oracle
(`Environment.World`): a tape of replies for each call site, a trace of the
replies given so far, and a number of flag reads that still see 1, after which
every read sees 0.  A theorem for all worlds
is a theorem for every environment, every moment of a stop and every exit of the
loop.  The number of reads is finite but arbitrary: a run in which the flag never
drops is covered by its finite beginnings, and the loops are proved to end with
no assumption that the sources run dry.  For sources that do,
`ReceivesOfFiniteSource` and `ReadsOfFiniteSource` bound the two inner loops
without any use of the flag.  A write is assumed to
accept no more than it was offered; every return code is allowed, the contract
ones and others.

**The worker and its controller** (`ForwardProtocol`, `ForwardSafety`,
`ForwardShutdown`, `ForwardStop`, `ForwardReturn`, `ForwardCalls`,
`ForwardService`).  The forwarding thread, the controller that
sets up, stops and disconnects in any order, the session mutex, thread creation
and join, and the freeing of session and handle form a transition system with
one step for each access to shared state.  A run is any list of steps, so a
theorem over runs is one over all interleavings.  Any number of threads may have
been created, so that "at most one is alive" is proved and not built in.  Three calls
wait: the lock, the join, and `accept` on a listener that nobody has shut down.
`RelayRounds` ties the two models together: every connection of the relay is a
run of the transition system.

**The saved server list** (`ConfigModel`, `ConfigTheorems`,
`ServerConfigManager`).  The list and the preference store, changed in place, and
the ordered first-wins map that every sequence of calls amounts to.

**The UDP client adapter** (`UdpAdapter`).  Four calls over global state.

Some claims that one might expect are false of the code, and the project says
when they hold:

- A stop need not return, because its clear of the running flag can be lost.
  `StopCanHangIff` proves that it returns in every fair run exactly when, just
  before the clear, the flag is up or the thread has ended; otherwise some run
  raises the flag again and no continuation of it returns.  `LostStopIsReachable`
  reaches such a run from a fresh handle.
- A stop need not leave `listen_sock` at -1, nor the state at EXIT or
  SHUTTING_DOWN.  `ListenerAfterStopIff` and `StateAfterStopIff` give the exact
  conditions; both hold for a worker past line 513 (`StopPostcondition`).
- The end of the client's stream does not drain the queue.
  `EndOfStreamDeliversIff` proves that everything received is delivered exactly
  when nothing is queued at that receive, and that exactly the queue is dropped
  otherwise.  `WillingSinksGetEverything` says when nothing is ever dropped.
- The adapter keeps its clients in order exactly when the library keeps its word
  (`BalancedThroughoutIff`).

## Model

| member | source | states |
|---|---|---|
| RelayAccounting.RelayIsExact | ssh-tunnel-android-app/app/src/main/jni/ssh_tunnel.c:563-668 | for every environment and every exit, bytes received = bytes the sink took, then bytes queued at disposal, then one refused chunk, in both directions; each sink holds a prefix of its own source; at most one chunk, of at most 4096 bytes, is lost, in one direction, and only on overflow or a failed `realloc` |
| RelayAccounting.QueueIsFifo | ssh-tunnel-android-app/app/src/main/jni/ssh_tunnel.c:371-438 | in either direction, through every sequence of appends and flushes, with any failures, the sink has the accepted bytes in order but for those still queued, within the cap |
| RelayAccounting.FlushUpMovesPrefix | ssh-tunnel-android-app/app/src/main/jni/ssh_tunnel.c:394-414 | a flush to the channel removes exactly the accepted prefix and touches no other byte log |
| RelayAccounting.FlushDownMovesPrefix | ssh-tunnel-android-app/app/src/main/jni/ssh_tunnel.c:417-438 | the same for a flush to the client socket |
| RelayAccounting.ForwardAccounts | ssh-tunnel-android-app/app/src/main/jni/ssh_tunnel.c:580-666 | the account is an invariant of the loop from any accounted state |
| RelayBounds.PendingBound | ssh-tunnel-android-app/app/src/main/jni/ssh_tunnel.c:580-633 | after k rounds the queue to the channel holds at most 65536 + 4096·k bytes, whatever the channel does |
| RelayBounds.PendingBoundIsTight | ssh-tunnel-android-app/app/src/main/jni/ssh_tunnel.c:608-633 | that bound is reached in each of the first 48 rounds |
| RelayBounds.NoOverflowBeforeRound49 | ssh-tunnel-android-app/app/src/main/jni/ssh_tunnel.c:579-633 | without allocation failures the 256 KiB cap refuses no chunk in the first 48 rounds |
| RelayBounds.OverflowInRound49 | ssh-tunnel-android-app/app/src/main/jni/ssh_tunnel.c:579-633 | some environment does make it refuse one in round 49 |
| RelayBounds.ForwardIsItsPasses | ssh-tunnel-android-app/app/src/main/jni/ssh_tunnel.c:580-666 | the loop is its passes, cut off late enough |
| RelayBounds.ReceivesAfterStop | ssh-tunnel-android-app/app/src/main/jni/ssh_tunnel.c:609-632 | once the flag is down or the connection inactive, the receive loop makes at most max(1, 65537 − pending) more receives and no write |
| RelayBounds.ReceivesOfFiniteSource | ssh-tunnel-android-app/app/src/main/jni/ssh_tunnel.c:609-632 | a client that sends n chunks and then no data costs at most n + 1 receives in one visit, for however long the flag stays up |
| RelayBounds.ReadsOfFiniteSource | ssh-tunnel-android-app/app/src/main/jni/ssh_tunnel.c:638-659 | the same for channel reads that end on one of libssh's codes |
| RelayBounds.StoppedPassWritesNothing | ssh-tunnel-android-app/app/src/main/jni/ssh_tunnel.c:589-665 | the rest of a pass after the flag dropped writes to neither sink |
| RelayBounds.ReadAllGrowth | ssh-tunnel-android-app/app/src/main/jni/ssh_tunnel.c:638-659 | the queue to the client has no backpressure: a visit to the read loop adds up to 4096 bytes per read, and refuses nothing, allocation failures apart, while that fits |
| RelayBounds.NoDownOverflowBeforeRead65 | ssh-tunnel-android-app/app/src/main/jni/ssh_tunnel.c:638-647 | from an empty queue no visit refuses a chunk before its 65th read |
| RelayBounds.DownOverflowInRound1 | ssh-tunnel-android-app/app/src/main/jni/ssh_tunnel.c:638-647 | a stalled client does make the cap refuse the 65th chunk in the very first round |
| RelayDelivery.WillingSinksGetEverything | ssh-tunnel-android-app/app/src/main/jni/ssh_tunnel.c:397-437 | if every write takes at least one byte and allocation succeeds, a connection that ends on its own has delivered both streams in full |
| RelayDelivery.EndOfStreamDeliversIff | ssh-tunnel-android-app/app/src/main/jni/ssh_tunnel.c:609-632 | whenever a visit to the receive loop meets the end of the client's stream, the connection ends with all received bytes at the channel if and only if nothing was queued at that receive; otherwise exactly that queue is dropped |
| RelayDelivery.InactiveMovesNothing | ssh-tunnel-android-app/app/src/main/jni/ssh_tunnel.c:634-666 | once a connection is inactive no byte moves in either direction for the rest of the pass and of the loop |
| RelayDelivery.PendingBytesCanBeDropped | ssh-tunnel-android-app/app/src/main/jni/ssh_tunnel.c:611-613 | the failing side of that condition is met by a whole connection, with no allocation failure and no refused chunk |
| RelayEnding.ConnectionEndsIff | ssh-tunnel-android-app/app/src/main/jni/ssh_tunnel.c:561-666 | for every environment, `connection_active` is still set at the end if and only if no reply was fatal (a closed or failed receive, a write of SSH_ERROR or SSH_EOF, a failed send or one of 0, an end or error of the channel, a failed `realloc`) and no chunk was refused; would-block, an interrupted call and a write of 0 are not fatal; the loop ends at the first round that leaves it, and without one only once the connection is inactive or the flag was seen down |
| RelayEnding.LoopEndsIff | ssh-tunnel-android-app/app/src/main/jni/ssh_tunnel.c:580-666 | the same from any state of the loop to its end |
| RelayEnding.ReceiveEndsIff | ssh-tunnel-android-app/app/src/main/jni/ssh_tunnel.c:609-632 | a visit to the receive loop keeps the connection if and only if no reply in it was fatal and no chunk refused; it goes on until the client has nothing more or is gone, a chunk is refused, or more than 64 KiB is pending |
| RelayEnding.ReadEndsIff | ssh-tunnel-android-app/app/src/main/jni/ssh_tunnel.c:638-659 | the same for the channel read loop, which goes on until the channel has nothing more or has ended, unless the connection ends or the flag is seen down |
| RelayEnding.QuietRounds | ssh-tunnel-android-app/app/src/main/jni/ssh_tunnel.c:589-637 | without a readable client nothing is received; with no tick and no readable session either, nothing is written to the channel; after an interrupted or failed `select`, or a tick that finds the session gone, nothing else happens |
| RelayRecovery.PassRetries | ssh-tunnel-android-app/app/src/main/jni/ssh_tunnel.c:596-661 | in a pass that goes through, from an active connection with the flag up, whatever the next write takes of the queue reaches the channel if the clock ticks, or if the session is readable and the client has not ended the connection; whatever the next send takes reaches the client in every such pass, unless the connection ends or the flag drops before the last flush |
| RelayRecovery.TickRetries | ssh-tunnel-android-app/app/src/main/jni/ssh_tunnel.c:603-606 | a tick flushes both queues before anything is received or read |
| RelayRecovery.TickedPassDrains | ssh-tunnel-android-app/app/src/main/jni/ssh_tunnel.c:596-661 | whatever was queued while the sinks stalled, once they take bytes again one pass with a tick leaves both queues empty and refuses nothing, unless it sees the flag down |
| RelayRecovery.StallIsMadeUp | ssh-tunnel-android-app/app/src/main/jni/ssh_tunnel.c:580-666 | from any accounted state with nothing lost, with willing sinks from there on and a tick in the next round, a connection that ends on its own has delivered both streams in full |
| RelayRounds.PassMirrored | ssh-tunnel-android-app/app/src/main/jni/ssh_tunnel.c:589-665 | whatever a pass of the relay does, a round of the transition system can do, with the flag falling at the same read, the same queue length, `connection_active` and exit |
| RelayRounds.ForwardIsARun | ssh-tunnel-android-app/app/src/main/jni/ssh_tunnel.c:580-666 | every connection of the relay, from the first test of the loop to its end, is a run of worker and controller in the transition system |
| ForwardBuffers.ForwardBuffer.Append | ssh-tunnel-android-app/app/src/main/jni/ssh_tunnel.c:371-391 | in place, `data[off..size]` becomes the queue with the bytes appended, in a block of exactly that size, or is unchanged on both failure paths; off ≤ size ≤ allocated ≤ 262144, and no `size_t` operation wraps |
| ForwardBuffers.ForwardBuffer.MoveToFront | ssh-tunnel-android-app/app/src/main/jni/ssh_tunnel.c:380 | the overlapping move puts the old pending bytes at the front |
| ForwardBuffers.ForwardBuffer.FlushToSsh | ssh-tunnel-android-app/app/src/main/jni/ssh_tunnel.c:394-414 | the in-place loop computes the flush of the abstract queue, and ends; an empty queue starts again at offset 0 |
| ForwardBuffers.ForwardBuffer.FlushToClient | ssh-tunnel-android-app/app/src/main/jni/ssh_tunnel.c:417-438 | the same towards the client |
| ForwardBuffers.ForwardBuffer.Dispose | ssh-tunnel-android-app/app/src/main/jni/ssh_tunnel.c:362-368 | the queue is dropped and the block given up |
| Connections.Connection.ReceiveFromClient | ssh-tunnel-android-app/app/src/main/jni/ssh_tunnel.c:609-632 | the receive loop over the scratch array computes its model and ends |
| Connections.Connection.ReadFromChannel | ssh-tunnel-android-app/app/src/main/jni/ssh_tunnel.c:638-659 | the channel read loop computes its model and ends |
| Connections.Connection.PumpOnce | ssh-tunnel-android-app/app/src/main/jni/ssh_tunnel.c:581-665 | one pass through the loop body, with its breaks, computes its model |
| Connections.Connection.Run | ssh-tunnel-android-app/app/src/main/jni/ssh_tunnel.c:563-668 | the whole loop and the disposal of both buffers, with the account of the connection |
| ForwardSafety.RunKeepsInv | ssh-tunnel-android-app/app/src/main/jni/ssh_tunnel.c:441-794 | the thread, mutex and lifetime invariant holds along every interleaving |
| ForwardSafety.NoUseAfterFree | ssh-tunnel-android-app/app/src/main/jni/ssh_tunnel.c:1002-1028 | while a worker is alive, session and handle are not freed and `port_forward_thread` names it (that a disconnect does free them is `DisconnectPostcondition`) |
| ForwardSafety.OneWorkerOneJoin | ssh-tunnel-android-app/app/src/main/jni/ssh_tunnel.c:700-786 | at most one worker is alive, and every thread is joined at most once, after it ended, and before it is forgotten |
| ForwardSafety.JoinsOnlyOnce | ssh-tunnel-android-app/app/src/main/jni/ssh_tunnel.c:757-786 | the polling join and the blocking join never both join a thread |
| ForwardSafety.NoWaitCycle | ssh-tunnel-android-app/app/src/main/jni/ssh_tunnel.c:1415-1427 | the controller never owns the mutex in a join, an ended worker never owns it, it is free whenever either side comes for it, and a step that leaves its thread where it was is the join of a live thread or an `accept` on a listener that is still up |
| ForwardSafety.FlagTellsProgress | ssh-tunnel-android-app/app/src/main/jni/ssh_tunnel.c:704-749 | in every reachable state before a stop's clear, an alive worker is short of line 513 exactly while the flag reads 0 |
| ForwardShutdown.ShutdownIsBounded | ssh-tunnel-android-app/app/src/main/jni/ssh_tunnel.c:514-690 | once the flag is cleared behind a worker past line 513: no new round, at most 1 accept, 10 open attempts, 1 sink write and 2 state writes before EXIT, in every interleaving |
| ForwardShutdown.QuenchedWorkerEnds | ssh-tunnel-android-app/app/src/main/jni/ssh_tunnel.c:514-690 | once its listener has been shut down too, that worker has ended when it has taken a fixed number of its own steps |
| ForwardShutdown.StepDrains | ssh-tunnel-android-app/app/src/main/jni/ssh_tunnel.c:514-690 | every step of such a worker, but a wait for a connection on a listener still up, lowers its rank, and nobody's step raises it |
| ForwardStop.ClearStartsDrain | ssh-tunnel-android-app/app/src/main/jni/ssh_tunnel.c:745-749 | the clear of a stop, in any reachable state, starts that drain if the worker is past line 513 |
| ForwardReturn.StopReturns | ssh-tunnel-android-app/app/src/main/jni/ssh_tunnel.c:745-794 | a stop whose worker is past line 513, or has ended, has joined and forgotten it in every run that gives the controller 5 steps, then the worker its bounded number, then the controller 108, with anything in between, from the call as well as from the clear |
| ForwardReturn.StopCanHangIff | ssh-tunnel-android-app/app/src/main/jni/ssh_tunnel.c:510-514 | with the controller at the clear, the stop returns in every such run if and only if the flag is up or the thread has ended; and some run loses the clear if and only if the flag is down and the thread alive |
| ForwardReturn.StuckForEver | ssh-tunnel-android-app/app/src/main/jni/ssh_tunnel.c:757-785 | a stop whose clear was overwritten never has its join enabled, along any continuation |
| ForwardReturn.LostStopIsReachable | ssh-tunnel-android-app/app/src/main/jni/ssh_tunnel.c:513 | such a stop is reachable from a fresh handle |
| ForwardStop.AcceptIsWoken | ssh-tunnel-android-app/app/src/main/jni/ssh_tunnel.c:751-756 | if the worker has passed line 479 at the line 751 test, then from line 755 on, in every interleaving, it never waits in `accept` again |
| ForwardCalls.PollsFiftyTimes | ssh-tunnel-android-app/app/src/main/jni/ssh_tunnel.c:762-785 | in every interleaving that leaves the thread alive, a stop that polls makes exactly fifty polls, two steps each, and then blocks in the join |
| ForwardCalls.ExitEndsPolling | ssh-tunnel-android-app/app/src/main/jni/ssh_tunnel.c:776-785 | once the thread has ended in EXIT, a stop that looks at the state is in the blocking join at its next step, in every interleaving |
| ForwardStop.StopPostcondition | ssh-tunnel-android-app/app/src/main/jni/ssh_tunnel.c:745-794 | whenever a stop whose worker was past line 479 at the clear returns, in any interleaving, the thread is joined once and forgotten, none is alive, `listen_sock` is -1 and the state is EXIT or SHUTTING_DOWN; a disconnect goes on to its lock, a plain stop to idle |
| ForwardStop.ListenerAfterStopIff | ssh-tunnel-android-app/app/src/main/jni/ssh_tunnel.c:751-756 | a stop is sure to return with `listen_sock` -1 if and only if the worker has passed line 479 at the line 751 test |
| ForwardStop.StateAfterStopIff | ssh-tunnel-android-app/app/src/main/jni/ssh_tunnel.c:750 | it is sure to return in a final state if and only if the worker has passed line 447 at the line 750 write |
| ForwardCalls.SetupCreatesIff | ssh-tunnel-android-app/app/src/main/jni/ssh_tunnel.c:700-742 | a setup that finds no thread returns after three controller steps with the flag down, with exactly one new thread, which is the current one, if the creation succeeded, and none otherwise |
| ForwardCalls.DisconnectPostcondition | ssh-tunnel-android-app/app/src/main/jni/ssh_tunnel.c:1014-1026 | from the lock of a disconnect, in every run that gives the controller its 4 steps (3 if it frees nothing), with any worker steps between: the mutex is free, the session freed if and only if there was one, the handle if and only if there was one or the call is the command line's; the controller is then gone, otherwise idle with the handle unchanged |
| ForwardCalls.DisconnectFrees | ssh-tunnel-android-app/app/src/main/jni/ssh_tunnel.c:1412-1428 | a whole disconnect from its call, in any state that the invariant allows with the worker past line 513 or ended or no thread: in every fair run every thread has ended and been joined once, and session and handle are freed |
| ForwardService.ComesUpIff | ssh-tunnel-android-app/app/src/main/jni/ssh_tunnel.c:447-514 | in every interleaving a worker short of line 514 has ended if and only if its `socket`, `bind` or `listen` was refused; otherwise it is exactly as many steps further as it has taken |
| ForwardService.StateTellsProgress | ssh-tunnel-android-app/app/src/main/jni/ssh_tunnel.c:447-582 | in every reachable state, until a stop writes its own, `pf_state` is STARTING during the setup of the socket, LISTEN_READY until the flag is raised, WAITING_ACCEPT at `accept`, CLIENT_ACCEPTED until a channel is open, and FORWARD_LOOP in every round |
| ForwardService.GivesUpAfterTen | ssh-tunnel-android-app/app/src/main/jni/ssh_tunnel.c:534-559 | in every interleaving, while every open attempt fails, the worker makes one a step and gives the channel up after exactly ten |
| ForwardService.ConnectionIsServed | ssh-tunnel-android-app/app/src/main/jni/ssh_tunnel.c:514-582 | with flag and listener up and a session, if everything it asks for is granted, the worker has begun a round of the forward loop within eight of its own steps, in every interleaving, unless a stop has cleared the flag |
| ForwardService.FailedAcceptsGoOn | ssh-tunnel-android-app/app/src/main/jni/ssh_tunnel.c:514-525 | in every interleaving, while every `accept` fails, the worker goes round its accept loop, one place a step, until a stop clears the flag |
| ForwardService.LeavesInOrder | ssh-tunnel-android-app/app/src/main/jni/ssh_tunnel.c:684-690 | a worker on its way out that is not disturbed clears `listen_sock` if and only if that is its own listener, writes EXIT last and has ended |
| ForwardService.EndedConnectionCloses | ssh-tunnel-android-app/app/src/main/jni/ssh_tunnel.c:580-667 | once `connection_active` is 0, in every interleaving and whatever the flag does, the worker comes to close the channel within a fixed number of its own steps, with no further round or connection and at most the one sink write it was in |
| ConfigTheorems.RunRefinesMap | ssh-tunnel-android-app/app/src/main/java/com/example/sshtunnel/models/ServerConfigManager.java:73-125 | from any loaded list, every run of add, update, delete and select agrees with an ordered first-wins map on every id and on the order |
| ConfigTheorems.OpRefines | ssh-tunnel-android-app/app/src/main/java/com/example/sshtunnel/models/ServerConfigManager.java:82-125 | each operation is that operation on the map; update keeps the position |
| ConfigTheorems.DedupKeepsFirsts | ssh-tunnel-android-app/app/src/main/java/com/example/sshtunnel/models/ServerConfigManager.java:53-67 | duplicate removal keeps exactly the first occurrence of each id, in order |
| ConfigTheorems.RemoveDuplicatesIsInvisible | ssh-tunnel-android-app/app/src/main/java/com/example/sshtunnel/models/ServerConfigManager.java:53-80 | it gives unique ids, is idempotent, keeps the ids, and changes no lookup |
| ConfigTheorems.FindIsFirst | ssh-tunnel-android-app/app/src/main/java/com/example/sshtunnel/models/ServerConfigManager.java:73-80 | a lookup gives the configuration at the first position with the id |
| ConfigTheorems.UniqueFromFirstSave | ssh-tunnel-android-app/app/src/main/java/com/example/sshtunnel/models/ServerConfigManager.java:44-51 | from the first save on ids are unique and the listing order is the map's |
| ConfigTheorems.RunPersists | ssh-tunnel-android-app/app/src/main/java/com/example/sshtunnel/models/ServerConfigManager.java:30-51 | at every method boundary the stored list decodes to the one in memory |
| ConfigTheorems.SelectionStep | ssh-tunnel-android-app/app/src/main/java/com/example/sshtunnel/models/ServerConfigManager.java:117-133 | an operation keeps "the selection is -1 or listed" if and only if it does not select an unlisted id |
| ConfigTheorems.RunKeepsSelection | ssh-tunnel-android-app/app/src/main/java/com/example/sshtunnel/models/ServerConfigManager.java:82-133 | so does every run that selects only listed ids |
| ConfigTheorems.SelectionIsHistory | ssh-tunnel-android-app/app/src/main/java/com/example/sshtunnel/models/ServerConfigManager.java:117-133 | after every run the selection is the id last selected, or the initial one if there was no select, unless that id has been deleted since, and -1 then; nothing else touches it |
| ConfigTheorems.OnlyEffectsAreSaved | ssh-tunnel-android-app/app/src/main/java/com/example/sshtunnel/models/ServerConfigManager.java:82-125 | adds of a present id, updates of an absent one and selects leave list and stored text as they were, however many; any other operation stores exactly the new list, which has unique ids |
| ConfigTheorems.AddIsFirstWins | ssh-tunnel-android-app/app/src/main/java/com/example/sshtunnel/models/ServerConfigManager.java:82-100 | adding a present non-zero id is a no-op, and a clock id that is present changes no lookup |
| ConfigManager.ServerConfigManager.constructor | ssh-tunnel-android-app/app/src/main/java/com/example/sshtunnel/models/ServerConfigManager.java:23-42 | the list starts as what is stored |
| ConfigManager.ServerConfigManager.RemoveDuplicates | ssh-tunnel-android-app/app/src/main/java/com/example/sshtunnel/models/ServerConfigManager.java:53-67 | the loop with its set of seen ids computes the removal |
| ConfigManager.ServerConfigManager.GetConfigById | ssh-tunnel-android-app/app/src/main/java/com/example/sshtunnel/models/ServerConfigManager.java:73-80 | the loop finds the first with the id, and nothing only if there is none |
| ConfigManager.ServerConfigManager.AddConfig | ssh-tunnel-android-app/app/src/main/java/com/example/sshtunnel/models/ServerConfigManager.java:82-100 | list, store and selection after an add, the early return included |
| ConfigManager.ServerConfigManager.UpdateConfig | ssh-tunnel-android-app/app/src/main/java/com/example/sshtunnel/models/ServerConfigManager.java:102-115 | the same after an update |
| ConfigManager.ServerConfigManager.DeleteConfig | ssh-tunnel-android-app/app/src/main/java/com/example/sshtunnel/models/ServerConfigManager.java:117-125 | the same after a delete, the cleared selection included |
| ConfigManager.ServerConfigManager.GetLastSelectedConfig | ssh-tunnel-android-app/app/src/main/java/com/example/sshtunnel/models/ServerConfigManager.java:135-141 | a listed selection is found |
| UdpAdapter.RunBalances | ssh-tunnel-android-app/app/src/main/jni/udp2tcp_client_adapter.cpp:83-167 | over every call sequence with such a library: running exactly while a handle is held, each client started only when none is live, stopped only between its start and its join, joined once, and starts minus joins is 0 or 1 |
| UdpAdapter.RunIsItsHistory | ssh-tunnel-android-app/app/src/main/jni/udp2tcp_client_adapter.cpp:83-167 | whatever the library answers, after every call sequence the adapter runs if and only if a good start has not been cleaned up, with the handle of the first such start; and it has made one library start per good start that found nothing in charge, one stop per stop and one join per cleanup that found a client |
| UdpAdapter.BalancedThroughoutIff | ssh-tunnel-android-app/app/src/main/jni/udp2tcp_client_adapter.cpp:83-167 | from idle, the adapter is balanced after every call of a sequence if and only if each start that reaches the library and succeeds yields a handle |
| UdpAdapter.OrderBalances | ssh-tunnel-android-app/app/src/main/jni/udp2tcp_client_adapter.cpp:134-167 | an orderly history of library calls has as many joins as starts, but for the live client |
| UdpAdapter.Globals.StartClient | ssh-tunnel-android-app/app/src/main/jni/udp2tcp_client_adapter.cpp:73-142 | the globals, the return code, and when the balance survives, after a start |
| UdpAdapter.Globals.StopClient | ssh-tunnel-android-app/app/src/main/jni/udp2tcp_client_adapter.cpp:144-152 | the globals and the library call after a stop |
| UdpAdapter.Globals.CleanupClient | ssh-tunnel-android-app/app/src/main/jni/udp2tcp_client_adapter.cpp:154-167 | the globals after a cleanup |

## Left out

- Sockets, `select`, libssh, OpenSSL, entropy, clocks, logging and JNI string handling; their results are choices of the environment.
- A negative write code outside the four of libssh.h ends a flush in the code and in the model; what libssh means by it is not modelled.
- The transition system takes each access to a volatile field as one atomic step in program order; weaker memory orders are not modelled.
- The transition system takes `pthread_create` as one step that both starts the thread and stores its id, and a failed one as leaving the id 0.
- RelayRounds.ForwardIsARun: goes one way only; the transition system keeps of a round the locations, the flag, `connection_active` and the length of one queue, so it has runs that no connection of the relay has.
- ForwardShutdown.QuenchedWorkerEnds: counts the worker's steps, so it says nothing of how long one takes; opening and closing the channel, the pause between attempts, `select` and the other library calls are taken to return.
- ForwardReturn.StopReturns: speaks of runs that are fair to both threads in turn; a scheduler that never runs one of them is outside.
- One handle and one controller thread: two controllers at once, a worker of another handle holding the same mutex, and a call with a null or already freed handle are outside.
- Closing of descriptors: the listening descriptor can be closed twice and its number reused in between, which the model does not track.
- Freeing of `pf_config` and of the thread argument, the parsing of hosts and ports, and the default values.
- Configurations are values: that a caller still holds, and can change, an object that is in the list is not modelled.
- Gson is a pair of inverse functions, and `apply` writes at once; malformed stored text is not modelled.
- The adapter's port casts, log level, log callback and statistics.
- `SshTunnelService`, the activities, `UdpBridgeConfig`, `UdpBridgeProtocol`, the echo servers, the command line and the parcel code of `ServerConfig`, which hold no comparable state.
