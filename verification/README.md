# A verified model of the network extension's concurrency and buffer core

The extension gives scripts TCP and UDP sockets with synchronous and asynchronous
operations.  Its difficult part is what lets these operations share one socket, one
buffer and one event loop without locks.  This project models that part and proves
what the code relies on.

## The modules

| file | subject |
|---|---|
| `socket_gate.dfy` | the reservation gate of a socket as a step machine: four atomics, any number of operations, one atomic access per step |
| `gate_refinement.dfy` | the gate refines an indivisible lock with one owner, or one reader and one writer |
| `gate_drain.dfy` | a drain ends, and what it has gained stays |
| `atomic_gate.dfy` | the same gate as a class whose methods perform the accesses one by one, with arbitrary steps of other operations between any two of them |
| `socket_lifecycle.dfy`, `socket_safety.dfy` | TLS pointers, raw socket, handshake, `close`, `shutdown`, `safe_shutdown` with its strand and timer, interleaved at every access |
| `socket_outcome.dfy` | how the calls on a socket end, compared with what happened to them |
| `socket_drain.dfy` | the drain of `safe_shutdown` among all other calls: every run of the socket is a run of its gate |
| `socket_example.dfy` | a run in which a TLS shutdown succeeds, so that the theorems about success are not empty |
| `streambuf.dfy` | `asio::basic_streambuf` as a class over an array, and the bounded byte queue that it refines |
| `async_state.dfy` | the state object and its getters |
| `async_ops.dfy`, `async_safety.dfy` | the eight asynchronous initiators, their catch blocks and their handlers, over many sockets and state objects |
| `async_outcome.dfy` | what operations publish and deliver, told from the events of a run |
| `event_loop.dfy` | manual polling, restart and worker threads on one event loop |
| `socket_streambuf.dfy` | `asio::basic_socket_streambuf`: partial sends, refills, flushing, unbuffering |
| `fixed_hex.dfy` | the fixed-width hexadecimal codec, for every width from 1 to 256 |
| `ssl_options.dfy` | parsing of the TLS options |
| `tally.dfy`, `wrappers.dfy` | counting the tokens of a kind; option and result types |

The gate, the stream buffers, the state object and the option parser have the form of
the source: classes and loops proved against specification functions.  The protocols
whose point is interleaving (socket lifecycle, asynchronous operations, event loop) are
step machines on values.  A run is any sequence of enabled steps, and the theorems are
about every reachable state or every run.

## What the model found

* **The counter may rise after a drain has read zero.**  A begin that passed its first
  check before the drain still increments and then undoes
  (`SocketGate.CounterMayRiseAfterDrain`).  The drained owner is nevertheless alone until
  it clears the flag (`GateDrain.DrainedStaysOwner`), and neither way out of a drain
  touches the counter (`SocketSafety.DrainExits`).
* **A zero counter does not mean a free flag.**  An exclusive operation gives back its
  counter slot before its flag (`SocketGate.ZeroCounterUnderFlag`).  This is why the retry
  in `safe_shutdown`, which waits for the counter only, can find the flag taken and
  return false.
* **A refused `prepare` can damage unread bytes.**  The bytes are moved to the front
  before the size is checked, and the offsets are updated only afterwards
  (include/asio/basic_streambuf.hpp:322-340).  `Streambuf.Buffer.Prepare` gives the exact
  result and says exactly when it equals the old contents, and
  `Streambuf.RefusedPrepareDamages` builds a buffer in which it does not.
* **A failed flush sends bytes twice when it is repeated.**  The put area keeps what a
  partial send has already sent (include/asio/basic_socket_streambuf.hpp:359-392).  A writer
  can rely on a retry, whatever the network does, exactly when at most one byte is pending
  (`SocketStreambuf.RetryHarmless`); `SocketStreambuf.SendsTwice` builds a buffer that sends a
  byte twice.
* **Decoding accepts more than digits.**  CNI_API.md:66 asks for a string of exactly 16
  bytes of hexadecimal ASCII.  The code reads with `std::stoull`, which also takes
  leading white space, a sign and an `0x` prefix (`FixedHex.AcceptsSpace`,
  `FixedHex.AcceptsSign`, `FixedHex.AcceptsPrefix`).  `FixedHex.Accepted` is the exact
  language, and `FixedHex.Canonical` says exactly which decodable strings are reproduced by
  encoding.
* **`write` and `send_to` fill the buffer after the reservation.**  The sequence diagrams in
  docs/async-architecture.md:95-99 and 241-243 show the other order.  The model follows the
  code.

## Model

| member | source | states |
|---|---|---|
| SocketGate.MutualExclusion | include/network.hpp:402-484 | In every state that satisfies the invariant: while one operation owns the socket exclusively (past both swaps, until its flag is cleared, or drained), no other operation owns it and no I/O is past its second check; at most one I/O per direction is active |
| SocketGate.StepKeepsInv | include/network.hpp:402-484 | Each single atomic access of any operation keeps the invariant: each flag and the counter equal the number of operations behind them, and an owner excludes active I/O |
| SocketGate.ReachableInv | include/network.hpp:402-484 | The invariant holds after every interleaving of every number of operations |
| SocketGate.Accounting | include/network.hpp:402-484 | `async_jobs` is exactly the number of operations between their increment and their decrement, never underflows, is at most 3, and at most 2 while the exclusive flag is clear |
| SocketGate.Quiescent | include/network.hpp:443-484 | With no operation under way all three flags are false and the counter is 0: every exit path gives back all it took |
| SocketGate.FlagsAreOwned | include/network.hpp:402-484 | A flag is set if and only if some operation under way stands behind it |
| SocketGate.UdpNeverDrains | include/network.hpp:843-926 | The UDP gate is the same gate without drains: no run without a drain begin reaches a drain point, so all theorems about runs cover UDP |
| SocketGate.ThreeJobsReachable | include/network.hpp:402-478 | The bound 3 is tight: two late begins on top of an exclusive owner |
| SocketGate.CounterMayRiseAfterDrain | network.cpp:1299-1309 | A drained socket can have a non-zero counter |
| SocketGate.ZeroCounterUnderFlag | network.cpp:1268-1280 | The counter can be zero while another operation still holds the exclusive flag |
| GateRefinement.StepRefines | include/network.hpp:402-484 | Each atomic access is one permitted step of the indivisible lock or no step: I/O is admitted at the second load, an exclusive operation at the 0 to 1 swap, a drain at the load of zero; failed begins are invisible |
| GateRefinement.RunRefines | include/network.hpp:402-484 | Every interleaving is a run of the lock with the same tokens in the same order, ending in the corresponding lock state |
| GateRefinement.LockRunSafe | docs/async-architecture.md:212 | In all runs of the lock: one owner alone, or at most one reader and at most one writer |
| GateRefinement.SettledAtomics | include/network.hpp:395-398 | Between operations the four atomics say exactly what the lock says: each flag whether somebody is there, the counter how many readers, writers and exclusive owners there are (a drained owner is not counted) |
| GateRefinement.SoloBeginIo | include/network.hpp:428-441 | A begin that meets no concurrent access succeeds if and only if the lock permits it, and otherwise restores all four atomics |
| GateRefinement.SoloBeginExclusive | include/network.hpp:466-478 | The same for an exclusive begin |
| GateRefinement.SoloBeginDrain | include/network.hpp:626-633 | A drain is admitted at once if and only if the lock permits it; otherwise it keeps the flag and waits, unless somebody owns the socket, when nothing changes |
| GateDrain.DrainStep | network.cpp:1299-1307 | While a drainer owns the flag, no access raises the rank, each change of the counter lowers it, each increment uses up one begin that had passed its first check, and no further I/O becomes active |
| GateDrain.DrainProgress | network.cpp:1299-1307 | A drain that still waits is never stuck: some other operation can take an access that lowers the rank |
| GateDrain.JobsBelowRank | network.cpp:1299-1307 | Rank zero means counter zero: the counter never exceeds the rank |
| GateDrain.DrainTerminates | network.cpp:1299-1309 | Over a whole drain of any length: at most two increments, at most six changes of the counter, no new active I/O, and a zero counter after as many rank-lowering accesses as the initial rank, which is at most six |
| GateDrain.DrainedStaysOwner | network.cpp:1282-1290 | After it has read zero a drainer stays sole owner, whatever the others do, until it clears the flag itself |
| AtomicGate.Socket.BeginIoJob | include/network.hpp:428-441 | For every schedule of the other operations: admission gives the reservation after exactly four accesses; a refusal leaves nothing behind, after one, three or six accesses, and names a flag that was really set during the call |
| AtomicGate.Socket.TryBeginIoJob | include/network.hpp:402-412 | The double check: success is the reservation, failure leaves only the direction flag and means that an exclusive flag was seen |
| AtomicGate.Socket.FinishIoJob | include/network.hpp:443-448 | The release ends at rest for every schedule, and the history stays a run of the gate |
| AtomicGate.Socket.BeginExclusiveOperation | include/network.hpp:466-478 | Refused with the first error if and only if the flag was set at the call; refused with the second only if the counter was seen non-zero; granted only if it was seen zero |
| AtomicGate.Socket.EndExclusiveOperation | include/network.hpp:480-484 | The release of an exclusive operation ends at rest for every schedule |
| AtomicGate.Socket.BeginDrainingExclusive | include/network.hpp:626-633 | Takes the flag exactly when it was clear |
| AtomicGate.Socket.DrainJobs | network.cpp:1299-1309 | Fails only at the deadline: exactly `rounds + 1` loads were made and every one met a positive counter. Succeeds at the first load that meets zero. Keeps the flag either way |
| AtomicGate.Socket.EndDrainingExclusive | include/network.hpp:634-637 | Clears the flag from both exits of a drain |
| AtomicGate.Socket.FinishJob | include/network.hpp:445-482 | The decrement never wraps around |
| AtomicGate.Socket.CloseRaw | include/network.hpp:977 | The raw close is called while its token stands inside an exclusive reservation; only then does the socket stop being open, and the call is recorded with its moment in the history |
| AtomicGate.ReservedIsAlone | include/network.hpp:974-978 | At each recorded raw close no other operation owned the socket and no I/O was active; `Valid` says so of all closes ever made, under every schedule |
| AtomicGate.Socket.Close | include/network.hpp:974-978 | Succeeds if and only if the raw close was called during this call, under its reservation, and went well; it was called only after a zero counter; if it was not called, a counter or a flag was seen set; holds nothing afterwards |
| AtomicGate.Socket.AwaitNoJobs | network.cpp:1387-1397 | The two polling loops end before the deadline only after a load of zero, and soon after it in any case |
| AtomicGate.Socket.SafeClose | network.cpp:1382-1407 | Returns true if and only if the socket was not open at the call or its raw close went well. Without a reservation it gives up only when its last load met a positive counter, and then the deadline had come or the counter had been at zero before; it asks for a reservation only after a load of zero; if that is refused, a counter or a flag was seen set; holds nothing on any exit |
| AtomicGate.Socket.Interfere | docs/async-architecture.md:212 | The other operations make exactly the moves of the schedule that are possible, in order, so the contracts above hold for every schedule |
| SocketLifecycle.StepKeepsInv | include/network.hpp:500-596 | Each step of each call, handler and timer keeps: program and gate agree, pointers are whole unless their owner is half way, and what a call knows stays true |
| SocketSafety.PointersChained | include/network.hpp:529-538 | At every single step, `tls_enabled` implies a live stream and a stream implies a live context |
| SocketSafety.ChangesAreOwned | include/network.hpp:500-543 | A step changes a pointer or closes the raw socket only inside an exclusive or drained reservation, when no I/O is active |
| SocketSafety.JobSeesOneStream | include/network.hpp:644-672 | An admitted job sees none or all three pointers and works on the live stream; `is_ssl` followed by `get_tls_raw` never throws inside a reservation |
| SocketSafety.JobKeepsItsStream | include/network.hpp:752-788 | The pointers are the same from the admission to the end of the job, whatever other calls do |
| SocketSafety.HandshakeOutcome | network.cpp:929-958 | A finished handshake leaves all three pointers; one that failed after installing them leaves none |
| SocketSafety.InstalledHandshakeRun | include/network.hpp:565-584 | Over every run: from its first installed pointer until it gives its reservation back, a handshake can only end with all three pointers in place or, having failed, with none |
| SocketOutcome.OutcomeExact | network.cpp:1291-1380 | For connect, handshake, `close`, `shutdown` and `safe_shutdown`, over every run and told from the events alone: a call that reaches its end reports success if and only if nothing went wrong at its own steps, in its shutdown handler or at its timer, and then it is connected, secured, closed or without TLS as it should be |
| SocketOutcome.BadHandlerIsFinal | network.cpp:1329-1363 | An error given to the shutdown handler, or a timer that fires first, keeps `safe_shutdown` from ever returning true |
| SocketOutcome.GoodCallSucceeds | network.cpp:1291-1380 | A call all of whose choices are good reports success and has achieved its purpose; a handshake needs an open socket without TLS |
| SocketOutcome.PlainShutdown | network.cpp:1366-1380 | Once drained, `safe_shutdown` of a socket without TLS returns true after exactly three good steps |
| SocketOutcome.FewSteps | network.cpp:1310-1380 | However the choices fall, a call takes at most ten steps inside its reservation |
| SocketOutcome.NeverStuck | network.cpp:1358-1361 | Inside its reservation a call can always work or leave, or its shutdown handler or its timer can run |
| SocketOutcome.NothingSkipped | include/network.hpp:674-803 | `shutdown` and `safe_shutdown` do not end without the raw shutdown, `close` and `safe_shutdown` not without the raw close |
| SocketOutcome.PurposeStays | include/network.hpp:565-803 | Over every run a call does what it was called for until it is over |
| SocketOutcome.Admitted | include/network.hpp:586-591 | A reservation that is granted begins exactly the operation that asked for it, with the pointers as they are |
| SocketOutcome.RetriesOnce | network.cpp:1258-1281 | `safe_shutdown` takes the exclusive flag if it is clear, tries once more if not, and then returns |
| SocketOutcome.OpenExactly | network.cpp:1335-1379 | What each step does to the raw socket: connecting opens it, the raw close closes it, so do the timer that has marked a timeout and the clean-up when it could not be armed, each unless it fails; nothing else touches it |
| SocketOutcome.GoneForEver | include/network.hpp:527-538 | A destroyed TLS stream never comes back: no later job works on it |
| SocketOutcome.DestroyedIsGone | include/network.hpp:534-538 | Every stream that is removed has gone in this sense, because numbers are given out once |
| SocketSafety.ShutdownReturningTrue | network.cpp:1299-1380 | A true result means: still the drained owner, nobody active, TLS cleared, raw socket closed, and a TLS shutdown, if any, completed without error or timeout |
| SocketSafety.PendingShutdownHasStream | network.cpp:1324-1346 | As long as the asynchronous TLS shutdown is pending, its stream is the live one and the socket is drained |
| SocketSafety.DestroyedAfterShutdown | network.cpp:1346-1364 | TLS is destroyed only after the shutdown handler finished, or when no shutdown was started |
| SocketSafety.TimeoutIsFinal | network.cpp:1335-1363 | Once the timer has marked the timeout, the call never returns true |
| SocketSafety.StrandOrders | network.cpp:1329-1344 | Over every run: whichever handler begins first decides. If the shutdown handler does, no timeout is ever marked and the timer never touches the raw socket; if the timer handler does, the timeout stays marked and the call never returns true |
| SocketSafety.ExitsRelease | network.cpp:1282-1309 | A call that is over holds nothing, and with all calls over the gate is as created |
| SocketSafety.DrainExits | network.cpp:1282-1290 | Both exits of a drain clear the flag and nothing else, also when the counter has risen again |
| SocketExample.ShutdownCanSucceed | network.cpp:1250-1381 | A connected and secured socket can reach a true result through an asynchronous TLS shutdown |
| SocketDrain.RunProjects | network.cpp:1250-1381 | Every run of a socket with all its calls is, access by access, a run of its gate |
| SocketDrain.ShutdownDrains | network.cpp:1299-1309 | While `safe_shutdown` drains among arbitrary other calls: at most two increments and six changes of the counter, nobody becomes an active job, and the counter is zero after at most six helpful accesses |
| SocketDrain.ShutdownProgress | network.cpp:1299-1307 | As long as the counter is not zero some other call can take its own next access, and that access brings the drain forward |
| Streambuf.Buffer.constructor | include/asio/basic_streambuf.hpp:131-141 | A new buffer is empty and has a put area of the smaller of 128 and the maximum |
| Streambuf.Buffer.Size | include/asio/basic_streambuf.hpp:158-161 | The length of the input sequence |
| Streambuf.Buffer.Reserve | include/asio/basic_streambuf.hpp:308-346 | Throws if and only if contents and request exceed the maximum; otherwise keeps the contents and makes the room; changes nothing when the room is there; the exact contents after a throw |
| Streambuf.Buffer.MoveToFront | include/asio/basic_streambuf.hpp:321-326 | The overlapping move, byte by byte, copies the input sequence to the front |
| Streambuf.Buffer.Prepare | include/asio/basic_streambuf.hpp:214-219 | Throws if and only if `size() + n > max_size()`; keeps the contents if and only if it succeeds, or nothing was consumed since the data was last moved to the front, or at least as much was consumed since as is unread, or the unread data repeats at the distance of the consumed bytes |
| Streambuf.Buffer.Commit | include/asio/basic_streambuf.hpp:233-238 | Appends exactly the first `n` bytes of the put area, or all of it |
| Streambuf.Buffer.Consume | include/asio/basic_streambuf.hpp:247-254 | Drops exactly the first `n` bytes, or all, and leaves the put area alone |
| Streambuf.Buffer.Bump | include/asio/basic_streambuf.hpp:263-274 | Reading a character takes the first byte of the contents; end of file if and only if there is none |
| Streambuf.Buffer.Overflow | include/asio/basic_streambuf.hpp:283-306 | Throws if and only if a character is given and the contents have the maximal size; otherwise appends exactly it; a throw loses nothing |
| Streambuf.Buffer.Put | include/asio/basic_streambuf.hpp:283-306 | Writing a string appends its longest prefix that fits |
| Streambuf.Buffer.ReadSizeHelper | include/asio/basic_streambuf.hpp:353-359 | The preferred size can always be prepared; it is all that limit and maximum allow, or at least 512 and at least the free capacity, and no more than these |
| Streambuf.RefusedPrepareDamages | include/asio/basic_streambuf.hpp:321-340 | A buffer in which a refused `prepare` destroys an unread byte, built with the ordinary operations |
| Streambuf.Perform | include/asio/basic_streambuf.hpp:214-306 | One operation succeeds if and only if the bounded queue can perform it, with the same contents afterwards |
| Streambuf.Replay | include/asio/basic_streambuf.hpp:131-346 | Every sequence of operations: the buffer completes it if and only if the bounded queue does, with the same contents |
| Streambuf.QueueConserves | include/asio/basic_streambuf.hpp:214-254 | The queue is first in, first out: initial bytes and arrivals equal departures and remaining bytes, in order |
| AsyncState.CheckedSize | network.cpp:50-60 | Accepts exactly the sizes above zero and up to the limit, and truncates |
| AsyncState.ResultHandsOut | network.cpp:766-778 | `get_result` of a finished read gives exactly the first `bytes_transferred` bytes, keeps the rest and sets the count to zero; it never reads past the data; an unfinished or write session gets null or an error and is left alone |
| AsyncState.BufferHandsOut | network.cpp:780-794 | `get_buffer` of a finished read gives exactly as many of the first bytes as the limit and the buffer allow, keeps the rest and lowers `bytes_transferred` by that many, not below zero; a bad limit is refused first |
| AsyncState.GettersDetermined | network.cpp:766-794 | These statements leave a getter no choice of answer or next state |
| AsyncState.PiecesOfResult | network.cpp:766-794 | A piece taken by `get_buffer` followed by `get_result` is what `get_result` alone would have given |
| AsyncState.StateObject.TakeResult | network.cpp:766-778 | The method on fields and buffer computes the specified answer and next state |
| AsyncState.StateObject.TakeBuffer | network.cpp:780-794 | The same for `get_buffer` |
| AsyncState.StateObject.CountAvailable | network.cpp:796-802 | What a getter could still take: the buffered bytes of a finished read, otherwise nothing |
| AsyncState.StateObject.LaunchRead | network.cpp:1013-1017 | The launch of a read calls `prepare`; it fails if and only if the request exceeds the maximum, otherwise keeps the data and makes the room |
| AsyncState.StateObject.StoreRead | network.cpp:1006-1009 | The handler of a read appends exactly the received bytes and records their number and the error |
| AsyncOps.StepKeepsInv | network.cpp:891-1106 | Every access, stage, getter call and foreign step keeps: gates consistent, bytes conserved, one operation in flight per state object, reservations counted |
| AsyncOps.ReachableInv | network.cpp:891-1106 | The same in every reachable world, for any number of sockets, objects and operations |
| AsyncOps.NotBoth | network.cpp:960-972 | Of two operations on one state object at most one is in flight or past the check of `read_until` |
| AsyncSafety.BytesConserved | network.cpp:766-1024 | Over every run of reads, `read_until` completions and getters: bytes delivered followed by bytes still buffered are the bytes received, in order |
| AsyncSafety.GettersStayInside | network.cpp:766-794 | In every reachable state a published result lies within the buffered data, and every getter hands out exactly the amount that is due |
| AsyncSafety.CommitIsWhole | network.cpp:1006-1017 | When a completion commits, the put area is still as large as the launch prepared it, so every byte is appended |
| AsyncSafety.LaunchesOnEmpty | network.cpp:1001-1017 | In every reachable state a read is launched on an empty buffer that has not published anything |
| AsyncSafety.LaunchOnBuffer | network.cpp:1013-1017 | On such an object the method with `prepare` does what the launch step of the machine does, so the room that a completion finds comes from `prepare` |
| AsyncSafety.HandleOnBuffer | network.cpp:1006-1009 | On fields and buffer the completion does what the two completion steps of the machine do |
| AsyncSafety.DoneMeansReleased | network.cpp:1006-1012 | `has_done` implies that the operation's reservation has been given back |
| AsyncSafety.ResultIsFinal | network.cpp:974-981 | Any step but a getter on the object or the next `read_until` on it leaves a published object untouched |
| AsyncSafety.ResultStays | network.cpp:974-981 | The same over whole runs, whatever getters and `read_until` calls happen on other objects |
| AsyncSafety.EndsMatchBegins | network.cpp:891-1106 | Every successful begin is matched by exactly one end, by the handler or by the catch block and never by both; a reservation is held exactly in between |
| AsyncSafety.ThrowingReadUntilRestores | network.cpp:964-995 | A `read_until` that throws restores the state object: before its admission, and at the access at which a refused begin throws, it has changed nothing; afterwards `init`, `is_read`, `ec` and `has_done` get their old values |
| AsyncOutcome.PublishedExact | network.cpp:891-1106 | Over every run, told from the arguments of the handler: when an operation has completed, `has_done` is set and the error code, the number of bytes and the buffer are exactly those of its completion; `has_done` is not set earlier |
| AsyncOutcome.FirstResult | network.cpp:766-1024 | The first `get_result` after a `read` or `receive_from` gives all that arrived, and after a `read_until` the first `bytes` of the buffer, leaving the rest |
| AsyncOutcome.BytesBalance | network.cpp:766-1106 | For every state object and every run, told from the events: bytes handed to the script or sent, followed by those buffered, are those buffered at first followed by those that came in, in order |
| AsyncOutcome.SendingExact | network.cpp:1026-1106 | From the launch to the publication the bytes sent followed by those buffered are the text |
| AsyncOutcome.CompletedSend | network.cpp:1034-1098 | A completion reports exactly the bytes sent, which are that prefix of the text; without error a `write` has sent all of it |
| AsyncOutcome.LaunchDecides | network.cpp:1026-1106 | An operation is pending exactly when its launch returned normally; `write` and `send_to` have then put exactly their text into the buffer |
| AsyncOutcome.CallRefused | network.cpp:960-963 | `read_until` is refused exactly while the last operation on its state object is pending, and then touches nothing |
| AsyncOutcome.NewStateReady | network.cpp:741-757 | A state from `create_async_state` answers no getter and is accepted by `read_until` |
| AsyncOutcome.NeverStuck | network.cpp:891-1106 | An operation that is neither over nor waiting for its handler can always take its own next step |
| EventLoop.StepKeepsInv | network.cpp:640-738 | Each step keeps: mutex flag and worker counter equal the threads behind them, and whoever polls by hand or restarts does so without workers |
| EventLoop.RestartIsAlone | network.cpp:1123-1140 | The loop is restarted only when stopped and while no other thread is inside a poll, a worker's loop or another restart |
| EventLoop.ManualPollIsAlone | network.cpp:640-660 | A manual poll never overlaps a worker's loop, another manual poll or a restart |
| EventLoop.WorkersCounted | network.cpp:690-738 | The counter is the number of workers between construction and exit, including those whose thread failed to start; zero when all are gone |
| EventLoop.MutexIsLive | network.cpp:644-699 | Whoever waits for the mutex can take it, or its holder can move on |
| EventLoop.WorkerGoesOn | network.cpp:675-689 | Over every run: a worker leaves its loop only because it was destroyed or a handler threw |
| EventLoop.WorkerStep | network.cpp:678-688 | As long as neither happens its own steps are drain, test, run, and again |
| EventLoop.DestroyedWorkerEnds | network.cpp:724-738 | A destroyed worker is gone after at most four steps of its own, and never waits for handlers again once it has left the wait, so the join ends |
| EventLoop.SoloRestart | network.cpp:1123-1140 | Undisturbed, `restart` restarts an idle, stopped loop and does nothing else |
| EventLoop.SoloPoll | network.cpp:640-660 | Undisturbed, `poll` runs handlers exactly when there are no workers and leaves nothing behind |
| EventLoop.SoloMake | network.cpp:690-723 | Undisturbed, the constructor restarts the loop if need be and counts one worker; if the thread cannot be created the count is taken back |
| SocketStreambuf.Buffer.SendAll | include/asio/basic_socket_streambuf.hpp:359-392 | For every plan of system calls: exactly the prefix that the plan lets through has gone, success if and only if that is all, and the error code is the one of the last call, cleared by a successful send |
| SocketStreambuf.BenignSends | include/asio/basic_socket_streambuf.hpp:359-392 | Without error or expiry everything goes, in however many pieces |
| SocketStreambuf.SendStops | include/asio/basic_socket_streambuf.hpp:359-392 | A failure stops a block exactly when the system has not offered to take all of it before; then exactly what it offered has gone, and the error code is that of the failure |
| SocketStreambuf.Buffer.Overflow | include/asio/basic_socket_streambuf.hpp:337-409 | Succeeds exactly when the plan lets the whole block through; then everything handed over is sent or pending, in order, and the put area holds at most the new byte; on failure the put area is unchanged and the prefix that has gone is named |
| SocketStreambuf.Buffer.Sync | include/asio/basic_socket_streambuf.hpp:411-414 | Succeeds exactly when the plan lets the put area through; then everything handed over has been sent |
| SocketStreambuf.Buffer.Unbuffer | include/asio/basic_socket_streambuf.hpp:416-427 | Succeeds if and only if nothing is pending and loses nothing |
| SocketStreambuf.Buffer.Underflow | include/asio/basic_socket_streambuf.hpp:283-335 | Refills with exactly the next block received, if and only if the get area is used up and a block comes before an error, the expiry or the end; bytes received followed by those to come stay the same; the error code is cleared by a refill and set by a failed one |
| SocketStreambuf.ReceivesBlock | include/asio/basic_socket_streambuf.hpp:306-313 | After any number of waits a block of up to 504 bytes is received whole |
| SocketStreambuf.ArriveConserves | include/asio/basic_socket_streambuf.hpp:292-333 | What is received followed by what the plan still holds is what the plan held |
| SocketStreambuf.ReadMany | include/asio/basic_socket_streambuf.hpp:283-335 | Over any number of characters the reader gets what the peer sent, in order and without a gap, and without an error all of it |
| SocketStreambuf.Buffer.Bump | include/asio/basic_socket_streambuf.hpp:283-335 | Bytes reach the reader in the order received; end of file only when all have been read and none comes |
| SocketStreambuf.Replay | include/asio/basic_socket_streambuf.hpp:337-427 | Over any run of puts, flushes and attempts to unbuffer with any partial sends: bytes sent followed by the put area equal the bytes handed over; always so without send error or expiry |
| SocketStreambuf.Agree | include/asio/basic_socket_streambuf.hpp:337-427 | Buffered and unbuffered writing send the same bytes |
| SocketStreambuf.Retry | include/asio/basic_socket_streambuf.hpp:359-405 | A flush and, if it fails, a second one: which of them succeeds for a given plan and exactly what the peer has got; right whenever at most one byte was pending |
| SocketStreambuf.RetryHarmless | include/asio/basic_socket_streambuf.hpp:359-405 | A failed and then successful flush sends what was handed over for every plan if and only if at most one byte was pending |
| SocketStreambuf.SendsTwice | include/asio/basic_socket_streambuf.hpp:359-405 | A buffer, built with the ordinary operations, whose peer gets the first of two bytes twice |
| FixedHex.Encodes | network.cpp:140-151 | For every width W: accepted if and only if 0 <= n < 16^W; the output has W upper-case digits and denotes n |
| FixedHex.DigitTable | network.cpp:147-160 | The sixteen digits of each case and their values |
| FixedHex.Decodes | network.cpp:153-168 | A string of W digits decodes to its value, or throws if that is 2^64 or more |
| FixedHex.RoundTrip | network.cpp:140-168 | Decoding an encoded number gives it back, for every width and number |
| FixedHex.Canonical | network.cpp:140-168 | Encoding a decoded 63-bit value gives the upper-case form of the string if and only if the string consists of digits |
| FixedHex.AcceptsForm | network.cpp:153-168 | Every string of W characters made of white space, an optional sign, an optional `0x` and digits decodes to the number it denotes, modulo 2^64 behind a minus sign, or throws from 2^64 on |
| FixedHex.Accepted | network.cpp:153-168 | A string decodes if and only if it has W characters and that form, with a number below 2^64 |
| FixedHex.AcceptsSpace | network.cpp:160-166 | Leading white space is accepted |
| FixedHex.AcceptsSign | network.cpp:160-166 | A sign is accepted; a minus sign wraps around modulo 2^64 |
| FixedHex.AcceptsPrefix | network.cpp:160-166 | An `0x` prefix is accepted if and only if a digit follows it |
| SslOptions.Parse | network.cpp:73-138 | Accepts a map if and only if the reference reading by key does, with the same options; the defaults for null; an error for anything else; the error is that of the first bad entry, or names the missing or unwanted CA location; parsed options are custom if and only if a CA location is given and unverified if and only if insecure, so the later tests in `init_ssl` and in the custom branch never fire on them |
| SslOptions.ParseEntry | network.cpp:82-126 | One entry is accepted if and only if its key and value are admissible, with its exact effect for each of the four mode names and each of the two locations, and with the exact error otherwise |
| SslOptions.OrderIrrelevant | network.cpp:82-126 | Permuting the entries does not change what the map asks for |
| SslOptions.ParseTwice | network.cpp:73-138 | Two enumerations of one map are both accepted with the same options, or both rejected |
| SslOptions.AcceptedOptions | include/network.hpp:507-508 | The same of the options that an accepted map asks for, which has no keys but the three known ones |
| SslOptions.EveryOptionReachable | include/network.hpp:330-333 | Every coherent combination of options can be asked for |

## Left out

Assumptions about the environment:

* Atomic accesses are sequentially consistent.  The swap of one variable followed by a plain
  load of another, on which the double check rests, is not derived from acquire and release.
* Sockets, name resolution, OpenSSL, certificate stores and the clock are choices of the run.
  Wait loops of the imperative gate end after a number of rounds that is a parameter.
* ASIO internals are assumed: a handler runs exactly once if the launch returns and never if it
  throws, strand handlers do not overlap, `async_read_until` reports no length beyond its
  buffer, and none with an error, and `async_write` reports the bytes it has sent, which without
  an error are all.
* Script code calls initiators and getters one at a time, as the interpreter does; handlers run on
  any thread.
* There are fewer than 2^64 worker threads.

What the model does not contain:

- AsyncOps: on values, so sharing of state objects and sockets through pointers is modelled by names; the fields and the array themselves are in `AsyncState.StateObject` and `Streambuf.Buffer`.
- SocketLifecycle, EventLoop: on values, one step per access; the class form of the gate alone is in `AtomicGate`.
- AsyncSafety.BytesConserved: does not cover state objects first used by `write` or `send_to`; `AsyncOutcome.BytesBalance` does.
- AsyncSafety.ThrowingReadUntilRestores: does not constrain the put area, whose length a failed launch may have changed, and assumes that a failed launch has not damaged the data; see `Streambuf.Buffer.Prepare`.
- AsyncOps.StepKeepsInv: checks that throw before the reservation (buffer size, option parsing) appear only as a call that is never made.
- EventLoop.WorkersCounted: does not state that every ready handler has run before a worker exits, because a handler can become ready between the last poll and the test of `running`.
- SocketSafety.ShutdownReturningTrue: does not promise a true result, which depends on the clock and on the retry; see `SocketGate.ZeroCounterUnderFlag`.
- Streambuf.Buffer.Commit: does not model the `int` casts in `pbump` and `gbump` beyond 2^31 bytes, nor `size_t` overflow of lengths.
- Streambuf.Buffer.Reserve: does not model a failing allocation inside `resize`, which damages data like a refused request.
- SslOptions.ParseTwice: which of several errors is reported depends on the order of the entries and is not promised.
- FixedHex.Canonical: does not speak about decoded values from 2^63 on, whose conversion to the script's number type is not part of this model; white space is that of the C locale.
- SocketStreambuf.Buffer.Overflow: moving a buffer and changing the expiry time between calls are left out.
- `wait`, `wait_for`, `eof`, `get_error` and `get_endpoint`, which read a finished state and change nothing.
- `available` and `peer_closed` of a socket, which take and give back a read reservation like `receive`.
- Trust reports, registration tables, endpoint and option setters, Windows code and the remaining ASIO headers.
