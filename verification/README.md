# leven: connections, job queue, thread pool, timers and buffer

A Dafny model of the parts of the leven network library whose correctness is a matter of whole runs:
the epoll-driven `TcpConnection` with the echo server as its client, the `EventLoop` job queue and its
eventfd wakeup, the `ThreadPool` monitor, the `TimerQueue`, and the `Buffer` they all write to.

## Structure

Code that mutates state exists twice. A **specification** gives every step as a function on values, and
the theorems about runs are lemmas over lists of steps. A **class** with the source's fields and methods
does the same by assignments and loops, and each method's `ensures` equates its new state with the
specification's; those of `EventLoop`, which has no single specification state, give the new value of each field.

Theorems about histories are only as good as the histories, so what a run does is also said a second time, from its
events alone. `Pipes` is the whole reactor told without channels and asserts, as byte pipes, a queue of jobs
and the kernel's answers; `TimerClock` is the timer queue told as alarms that ring; `EventLoopRuns` and
`ThreadPoolRuns` read off a run which jobs and tasks it was given, which wakeups were written and which tasks returned.
The specifications are proved to agree with these over every run.

The kernel (results of `write`, `readv`, `epoll_wait`, expiry of timers, the order in which
threads run, spurious wakeups) and the clock are parameters of the steps, unconstrained beyond what the
system calls promise. A step that is not possible in a state leaves it unchanged, and an `assert` of the
source that fails ends the run, so "the assert holds" is a theorem and not an assumption. In the reactor these are
the eight asserts listed in `Connection.Site`; "no assert fails" means none of these.

| file | content |
|---|---|
| `Common.dfy`, `IntCodec.dfy` | bytes and concatenation; big-endian two's-complement integers |
| `Buffer.dfy` | `Shape`, the layout of a buffer and its memory bound; class `Buffer` |
| `Epoll.dfy` | masks, ADD/MOD/DEL and the kernel's interest list; classes `Epoller`, `Channel` |
| `Connection.dfy` | one connection: its fields, the history of its socket, its methods; the invariant `Sound` |
| `Reactor.dfy` | all connections of a loop, the server's set, the job queue, other threads' sends; client callbacks are arbitrary lists of calls |
| `ReactorProofs.dfy`, `ReactorRuns.dfy`, `ReactorTheorems.dfy` | what calls, handlers and steps keep; the invariant of every run; the theorems |
| `FaultSites.dfy` | which assert a failing step fails |
| `ReactorLimits.dfy` | the discipline under which no assert fails, and the hang-up that fails one |
| `Pipes.dfy`, `PipesRefine.dfy` | the reactor as byte pipes, defined on its own; that every step and every run of the reactor does the same |
| `RanSends.dfy`, `DrainedShutdown.dfy` | the accepted payloads against the jobs that ran; what is on the wire when `SHUT_WR` is attempted |
| `LateSends.dfy`, `ComingSends.dfy`, `FinalShutdown.dfy` | what other threads' sends do to a shutdown: which steps write after it or repeat it, and from which states no run does |
| `Echo.dfy`, `EchoServe.dfy`, `EchoRuns.dfy` | the echo server as the reactor's client: its callbacks, one handleEvents as a function on its connection, and the theorems of every run |
| `EchoExpiry.dfy` | when a connection is given more time and when it is closed, from what a step is seen to do; that no input lingers |
| `EchoLimits.dfy`, `EchoDoom.dfy`, `EchoHeld.dfy`, `EchoCrash.dfy` | the assert the echo server can fail: never from a calm state, from every other one, by connections that the client's map holds, and a run that does |
| `TcpConnection.dfy` | classes `TcpConnection`, `TcpServer`, `EchoServer` over the classes of the files above |
| `EventLoop.dfy`, `EventLoopRuns.dfy` | the wakeup protocol as interleaved steps, class `EventLoop`; every job, wakeup and quit of a run accounted for |
| `ThreadPool.dfy`, `ThreadPoolStop.dfy` | the bounded monitor with two condition variables; class `ThreadPool`; what stopping it does |
| `ThreadPoolRuns.dfy` | every task of a run accounted for, from its call to its end; progress |
| `Timers.dfy`, `TimerQueue.dfy` | the ordered set of deadlines and the kernel timer; classes `Timer`, `TimerQueue` |
| `TimerClock.dfy` | the timers as alarms, defined on their own; that every step and every run of the queue does the same |

## Where the code does less than one would expect

The model does what the code does. Where a natural property is false of it, there is a run that shows it,
and a condition under which it holds.

* **A closed connection can be registered again.** `onTimeout` of the echo server queues a forced close; if
  the same iteration flushes the last output of that connection, a write-complete job is queued behind it.
  That job finds reading off, because the connection is closed, and switches it on. The next readable event
  fails the assert at `leven/TcpConnection.cc:217`. `EchoCrash.EchoServerCrashes` is a complete run to that
  assert, from the start of the server and for every timeout. `EchoDoom.TimeoutCrashesExactly` is the condition:
  a time-out makes the crash possible if and only if it visits an open connection that the same iteration is
  still to handle as writable. `EchoDoom.CanCrashExactly` says the same of states, and
  `EchoLimits.GentleRunsServe` of runs: without such time-outs, and without the hang-ups of the next item, no
  assert fails.
* **A hang-up that also reads.** `EPOLLHUP` without `EPOLLIN` but with `EPOLLPRI` or `EPOLLRDHUP` runs the
  close callback and then the read callback of the closed connection: `ReactorLimits.HangUpThatReads` is the
  condition, `ReactorLimits.HangUpFailsAssert` a run.
* **A send of another thread can be written after `SHUT_WR`, and have it attempted twice.** It tests `state_`, and
  its job may run after the loop thread shut the connection down; `sendInLoop` refuses only disconnected
  connections, and `handleWrite` shuts down again after flushing what such a send left.
  `LateSends.LateSendShutsAgain` is a run to the second attempt. `LateSends.WrittenAfterShutdown` and
  `LateSends.ShutsAgainExactly` say exactly which steps write after a shutdown and which repeat it;
  `FinalShutdown.FinalExactly` and `FinalShutdown.ShutIsFinalExactly`, from exactly which states no run does. What
  always holds is that every accepted byte is on the wire when `SHUT_WR` is attempted
  (`DrainedShutdown.ShutWhenDrained`). Runs in which only the loop thread sends shut down gracefully
  (`ReactorTheorems.LoopThreadShutdown`).
* **Jobs queued before `loop()`** by the loop's own thread do not wake it: `EventLoops.NoLostWakeup` holds if
  and only if there are none, by a run that polls with such a job pending.
* **`ThreadPool::stop` discards tasks.** `ThreadPoolStop.StopDiscards` is a run; how many are left is decided
  when `running_` becomes false (`ThreadPoolStop.StopLeavesTasks`), and none is if and only if no call of
  `runTask` is then under way and each queued task has a worker inside `takeTask` or committed to it
  (`ThreadPoolStop.DiscardsNothingExactly`).

## Model

| member | source | states |
|---|---|---|
| Buffers.Buffer.constructor | leven/util/Buffer.h:32-40 | a new buffer is empty and has an eight-byte header |
| Buffers.Buffer.Retrieve | leven/util/Buffer.h:89-96 | drops exactly the first len readable bytes; a drained buffer is reset to its header |
| Buffers.Buffer.RetrieveAll | leven/util/Buffer.h:117-121 | empties the buffer and restores the whole array for writing |
| Buffers.Buffer.RetrieveAsString | leven/util/Buffer.h:126-132 | what is returned followed by what stays is what was readable |
| Buffers.Buffer.Append | leven/util/Buffer.h:144-149 | readable bytes are concatenated, across growth and compaction |
| Buffers.Buffer.EnsureWritableBytes | leven/util/Buffer.h:154-160 | afterwards len bytes fit, and no readable byte changed |
| Buffers.Buffer.MakeSpace | leven/util/Buffer.h:292-306 | growing or sliding left changes no readable byte, and its assert kCheapPrepend < readerIndex_ holds |
| Buffers.Buffer.SlideLeft | leven/util/Buffer.h:297-304 | the overlapping copy to the left keeps the readable bytes |
| Buffers.Buffer.Prepend | leven/util/Buffer.h:275-281 | readable bytes get the data in front, in place |
| Buffers.Buffer.ReadFd | leven/util/Buffer.cc:24-47 | a read of any length, split between tail and spill area, is concatenated; a failed one changes nothing |
| Buffers.Buffer.AppendInt | leven/util/Buffer.h:174-193 | appends the big-endian two's-complement bytes of the integer |
| Buffers.Buffer.PrependInt | leven/util/Buffer.h:254-273 | puts those bytes in front |
| Buffers.Buffer.PeekInt | leven/util/Buffer.h:223-252 | returns the one integer of that width whose encoding the first bytes are |
| Buffers.Buffer.ReadInt | leven/util/Buffer.h:195-221 | the encoding of the result followed by what stays is what was readable |
| Buffers.GrowthBound | leven/util/Buffer.h:292-306 | one call never shrinks the array, and grows it to no more than twice what is then readable, plus seven |
| Buffers.MemoryBound | leven/util/Buffer.h:144-160 | over any run the array is at most max(8 + initialSize, 2H + 7), H the largest readable size reached |
| Buffers.MemoryBoundIsTight | leven/util/Buffer.h:294-295 | the bound is attained |
| Buffers.HeaderIntact | leven/util/Buffer.h:254-281 | over any run without prepends eight bytes stay free in front, so a 64-bit integer can be prepended |
| Buffers.EmptyIsFresh | leven/util/Buffer.h:89-121 | over any run, whenever the buffer is empty its indices are back at the header and the whole array behind it is free |
| IntCodec.DecodeEncode | leven/util/Buffer.h:174-252 | every signed integer of each width is read back as written |
| IntCodec.EncodeDecode | leven/util/Buffer.h:223-252 | every byte string is the encoding of exactly the integer it is read as |
| IntCodec.DigitAt | leven/util/Buffer.h:174-193 | the byte at each place is the digit of the power of 256 that its distance from the end says: network byte order |
| IntCodec.FitsExactly | leven/util/Buffer.h:174-193 | the four widths are those of the C++ types |
| IntCodec.ReadBack | leven/util/Buffer.h:174-221 | every list of mixed-width integers appended is read back as the same list, leaving what follows |
| Epoll.UpdateMirrors | leven/Epoller.cc:46-69 | one mask change keeps the kernel's list equal to the channels' masks, is never refused, and fails the assert exactly on an unregistered channel left with nothing |
| Epoll.ChoiceIsLegal | leven/Epoller.cc:46-60 | in a mirrored registry ADD is chosen only for a descriptor the kernel does not hold, MOD and DEL only for one it holds |
| Epoll.KernelMirrorsChannels | leven/Epoller.cc:46-69 | over every run on any channels: the kernel's list is exactly the masks, and every ADD, MOD and DEL is legal |
| Epoll.OnlyDisableAllRemoves | leven/Channel.h:61-73 | once enabled for reading a channel stays registered, thanks to EPOLLPRI, until disableAll, which removes it |
| Epoll.Epoller.UpdateChannel | leven/Epoller.cc:46-60 | performs the chosen ADD, MOD or DEL and leaves the polling flag to match |
| Epoll.Channel.EnableRead | leven/Channel.h:61-62 | sets the mask, the polling flag and the kernel's entry together |
| Epoll.Channel.EnableWrite | leven/Channel.h:63-64 | likewise for EPOLLOUT |
| Epoll.Channel.DisableRead | leven/Channel.h:65-66 | likewise; EPOLLPRI stays |
| Epoll.Channel.DisableWrite | leven/Channel.h:67-68 | likewise for EPOLLOUT |
| Epoll.Channel.DisableAll | leven/Channel.h:69-70 | the kernel's entry is gone |
| Connection.SendInLoopSound | leven/TcpConnection.cc:85-129 | sending, with any kernel answer, fails no assert and keeps wire plus output equal to the accepted payloads and EPOLLOUT equal to output pending |
| Connection.FlushSound | leven/TcpConnection.cc:231-256 | so does flushing, whose asserts hold when EPOLLOUT is still wanted; what leaves the output is in PipesRefine.FlushTakes |
| Connection.CallsSound | leven/TcpConnection.cc:153-207 | shutdown, forced close, stopRead, startRead and closing keep it; shutdown and close fail their assert exactly on a closed connection |
| Connection.JobsExactly | leven/TcpConnection.cc:107-128 | a write-complete job is pushed exactly when a send or a flush leaves the output empty having written something, or an empty send's write succeeds with none pending; a high-water job exactly when a send takes the output to the mark or beyond, with the size reached |
| Connection.OutputGrows | leven/TcpConnection.cc:85-129 | sending and flushing only extend the wire and the accepted payloads |
| PipesRefine.SendTakes | leven/TcpConnection.cc:85-129 | a payload that reaches an open connection is accepted: the wire grows by what the kernel takes of it, nothing if output is pending, and the output by the rest; only EPIPE or ECONNRESET with no output pending loses it, all of it |
| PipesRefine.FlushTakes | leven/TcpConnection.cc:231-256 | handleWrite of an open connection: the wire grows by exactly the bytes the kernel took from the front of the output, and the output loses exactly those |
| PipesRefine.SendDataExactly | leven/TcpConnection.cc:69-83 | a send of the loop thread that finds the connection connected has its payload accepted, or lost to EPIPE or ECONNRESET; any other changes nothing |
| PipesRefine.CallRefines | leven/TcpConnection.cc:69-207 | every client call that fails no assert does to all connections, jobs and histories what it does to the pipes |
| PipesRefine.DispatchRefines | leven/Channel.cc:31-46 | so does one handleEvents with any callbacks and kernel answers |
| PipesRefine.StepRefines | leven/EventLoop.cc:48-61 | so does every step of every run |
| PipesRefine.RunRefines | leven/EventLoop.cc:48-61 | over every run from the start: buffers, wire, accepted and lost payloads, shutdowns, masks, callbacks, the server's set, the active channels and all jobs are what the pipes, which never see the reactor, make of its events |
| ReactorProofs.DoCallEvolves | leven/TcpConnection.cc:69-207 | a client call on the loop thread fails an assert exactly when it shuts down a closed connection; otherwise it closes nothing and reorders nothing; what it does is in PipesRefine.CallRefines |
| ReactorProofs.ScriptProceeds | leven/TcpConnection.cc:69-207 | the same for a callback making any list of calls on any connections |
| ReactorProofs.CloseConnProceeds | leven/TcpConnection.cc:258-266 | closing, erasing and the connection callback: leaves the connection closed, and fails an assert exactly on a closed one or by the callback's own misuse |
| ReactorProofs.ReadConnProceeds | leven/TcpConnection.cc:214-229 | the same for handleRead with any readv result |
| ReactorProofs.FlushProceeds | leven/TcpConnection.cc:231-256 | handleWrite never fails an assert when its connection still wants EPOLLOUT or was closed meanwhile |
| ReactorProofs.DispatchProceeds | leven/Channel.cc:31-46 | close, read and write callbacks of one handleEvents: the exact condition for a failed assert; only the handled connection may stop writing |
| ReactorRuns.HandleKeeps | leven/EventLoop.cc:53-57 | handling one active channel keeps the invariant of every run |
| ReactorRuns.ScriptKeeps | leven/EventLoop.cc:56-57 | so does any other channel's callback |
| ReactorRuns.AcceptKeeps | leven/TcpServer.cc:24-34 | so does a new connection, established and put into the server's set |
| ReactorRuns.SendJobKeeps | leven/TcpConnection.cc:78-82 | so does a send queued by another thread, which never fails an assert |
| ReactorRuns.OtherJobKeeps | leven/TcpConnection.cc:175-191 | so does any other job; a forced close leaves its connection closed |
| ReactorRuns.PushSendKeeps | leven/EventLoop.cc:102-112 | so does another thread's push |
| ReactorRuns.StepKeeps | leven/EventLoop.cc:48-61 | every step keeps the invariant or fails an assert, and fails exactly when Faults holds |
| ReactorRuns.ExecKeeps | leven/EventLoop.cc:48-61 | every run keeps the invariant |
| FaultSites.FailsExactlyAt | leven/Channel.cc:31-46 | which assert a failing step fails: a closed connection's events the one of the first callback that runs, an open one's that of the read callback after a hang-up, and otherwise a client's shutdown of a closed connection |
| ReactorTheorems.StreamIntegrity | leven/TcpConnection.cc:69-134 | in every reachable state wire and output are the accepted payloads, whole and in order; each thread's in the order it pushed them; the wire is a prefix, also after closing |
| RanSends.AcceptedRan | leven/TcpConnection.cc:75-82 | in every reachable state the payloads a connection accepted from other threads are a subsequence, in order, of those whose jobs ran for it |
| RanSends.RanSendExactly | leven/TcpConnection.cc:85-129 | such a job's payload is accepted as it runs exactly if the connection is open and its write does not fail with EPIPE or ECONNRESET; in the latter case its bytes are counted as lost |
| ReactorTheorems.OutputFlag | leven/TcpConnection.cc:96-128 | in every reachable state of an open connection EPOLLOUT is registered exactly while output is pending |
| ReactorTheorems.ClosedOnce | leven/TcpServer.cc:24-41 | in every reachable state the server's set is the open connections; the connection callback ran once finding the connection up, and once finding it down exactly if it is closed |
| ReactorTheorems.ClosedForever | leven/TcpConnection.cc:258-266 | no run reopens a closed connection or closes it twice |
| ReactorTheorems.ForceCloseCloses | leven/TcpConnection.cc:185-191 | a forced close that ran leaves its connection closed |
| ReactorTheorems.AssertsThatHold | leven/TcpConnection.cc:97-97 | in no run do the asserts at lines 97, 238, 239 of TcpConnection.cc fail, nor that of closeConnection, nor that of Epoller::updateChannel when a channel is removed |
| ReactorTheorems.JobsConserved | leven/EventLoop.cc:151-164 | jobs run, rest of the batch and pending jobs are all pushes in lock order |
| ReactorTheorems.StepGrows | leven/TcpConnection.cc:85-134 | a step only extends histories; a send comes after SHUT_WR exactly when a queued send of another thread runs for an open connection |
| ReactorTheorems.LoopThreadShutdown | leven/TcpConnection.cc:153-173 | in every run in which only the loop thread sends: at most one SHUT_WR, attempted with every accepted byte on the wire, and nothing written since |
| DrainedShutdown.ShutWhenDrained | leven/TcpConnection.cc:153-173 | whoever sends, a step that attempts SHUT_WR leaves nothing buffered and every accepted byte on the wire |
| ReactorTheorems.NothingAfterShutdown | leven/TcpConnection.cc:153-173 | with other threads too: if SHUT_WR was attempted, no late send has run so far and none of their sends is in flight, the wire is final and SHUT_WR is not repeated (FinalShutdown has the exact conditions) |
| ReactorTheorems.StaysQuiet | leven/TcpConnection.cc:69-83 | a send gets in flight only by another thread that finds the connection connected |
| ReactorTheorems.ShutdownTakesEffect | leven/TcpConnection.cc:153-173 | after a shutdown that found it connected: SHUT_WR attempted, output pending, or closed |
| ReactorLimits.DisciplinedRunsSucceed | leven/Channel.cc:31-46 | no assert fails in any run whose callbacks neither shut down nor restart reading of closed connections and whose hang-ups do not read |
| ReactorLimits.HangUpThatReads | leven/Channel.cc:33-41 | with such callbacks, an open connection's events fail an assert if and only if they hang up without EPOLLIN and also read |
| ReactorLimits.HangUpFailsAssert | leven/Channel.cc:33-41 | a run to such a hang-up, and to its failed assert |
| LateSends.StepWrites | leven/TcpConnection.cc:85-129 | a step writes to a shut-down connection a prefix of its output or of another thread's payload, as the kernel takes it, and nothing else |
| LateSends.WrittenAfterShutdown | leven/TcpConnection.cc:85-129 | after SHUT_WR a step writes if and only if it runs another thread's send on the open connection with no output pending, or flushes what an earlier such send left, and the kernel takes a byte |
| LateSends.ShutsAgainExactly | leven/TcpConnection.cc:231-256 | after SHUT_WR a step attempts it again, once, if and only if it flushes the last byte of what a late send left |
| LateSends.LateSendWrites | leven/TcpConnection.cc:85-129 | a send that finds the connection shut down is written all the same, and counts as late if SHUT_WR was attempted |
| LateSends.LateSendReachable | leven/TcpConnection.cc:153-173 | a run to a shut-down connection with another thread's send about to run |
| LateSends.LateSendShutsAgain | leven/TcpConnection.cc:231-256 | a whole run that attempts SHUT_WR twice, with the late bytes on the wire |
| FinalShutdown.FinalExactly | leven/TcpConnection.cc:153-173 | from an open connection that is shut down with nothing buffered, no run writes any more if and only if no send of bytes by another thread is queued or submitted that the loop will reach before closing the connection or failing an assert |
| FinalShutdown.ShutIsFinalExactly | leven/TcpConnection.cc:245-249 | from such a state no run attempts SHUT_WR if and only if no such send is coming whose batch has no forced close of the connection, so that it is there to flush the rest |
| Echo.MessageEchoes | examples/EchoServer.cc:53-62 | onMessage keeps conservation and backpressure: what the queued jobs will do to reading fits the output it leaves |
| Echo.FlushEchoes | leven/TcpConnection.cc:245-254 | so does flushing |
| Echo.JobEchoes | examples/EchoServer.cc:64-76 | so does each of the client's jobs, run first in the queue |
| EchoRuns.EchoStepKeeps | examples/EchoServer.cc:41-94 | every step of the echo server keeps its invariant |
| EchoServe.ServedSound | leven/Channel.cc:31-46 | serving an event fails an assert exactly when the event is fatal, and keeps the connection sound |
| EchoRuns.Backpressure | examples/EchoServer.cc:64-76 | in every reachable state of an open connection, counting the queued jobs in their order: with nothing to write it will be reading, with output at or above the mark it will not |
| EchoRuns.BackpressureNeverStalls | examples/EchoServer.cc:64-76 | in every reachable state of an open connection that does not read, output is pending or a write-complete job is queued |
| EchoRuns.BackpressureEngages | leven/TcpConnection.cc:117-128 | in every reachable state of an open connection with output at or above the mark, reading is off or a high-water job is queued |
| EchoRuns.IdleReads | examples/EchoServer.cc:64-76 | an open connection with no output and no job is reading |
| EchoRuns.EchoConservation | examples/EchoServer.cc:53-62 | in every reachable state bytes read are wire, output and input buffers, in order, if and only if no write lost bytes to EPIPE or ECONNRESET |
| EchoExpiry.NothingLingers | examples/EchoServer.cc:53-62 | in every reachable state a connected connection has no input left: all it sent is on the wire or in the output, in order, if no write lost bytes |
| EchoRuns.EveryConnectionWatched | examples/EchoServer.cc:79-94 | every open connection has an expiry, or its forced close is queued |
| EchoRuns.TimeoutCloses | examples/EchoServer.cc:84-94 | onTimeout fails no assert, queues the forced close of every open connection past its expiry, and forgets it |
| EchoExpiry.TimeoutSpares | examples/EchoServer.cc:84-94 | onTimeout changes nothing of a connection whose time has not come or that it does not know: neither the connection, nor its time, nor whether its forced close is queued |
| EchoExpiry.TimesExactly | examples/EchoServer.cc:53-82 | every step, for every connection: bytes received give it the whole time-out, reading switched on again likewise, the high-water mark twice as much, the down callback and a visit of onTimeout take its time away, and nothing else changes it |
| EchoExpiry.NewTimes | examples/EchoServer.cc:41-51 | a new connection has the whole time-out |
| EchoLimits.CrashesExactly | leven/TcpConnection.cc:214-217 | a step of the echo server fails an assert if and only if it handles a reading or hang-up event of a closed connection, or a hang-up that also reads |
| EchoLimits.WriteCompleteAfterClose | examples/EchoServer.cc:64-70 | a write-complete job run after the close registers the closed connection for reading |
| EchoLimits.GentleRunsServe | examples/EchoServer.cc:84-94 | no run fails an assert in which no hang-up reads and no time-out visits an open connection that the same iteration is still to handle as writable |
| EchoDoom.CanCrashExactly | leven/TcpConnection.cc:214-217 | with closed connections taken to live on: from a reachable state some run of ordinary events fails an assert if and only if a closed connection will be registered once the queued jobs have run, or a channel still to be handled is fatal or flushes a connection bound to be closed |
| EchoHeld.HeldCrashesExactly | examples/EchoServer.cc:64-94 | without that assumption: while the client's map holds the registered closed connections, the same condition is exact for a failed assert on a connection that is open or in that map when it fails |
| EchoHeld.OrdinaryHeld | examples/EchoServer.cc:64-94 | the map goes on holding them through every step but a time-out |
| EchoHeld.CalmIsHeld | examples/EchoServer.cc:64-94 | in a calm state there are none to hold |
| EchoDoom.TimeoutCrashesExactly | examples/EchoServer.cc:84-94 | a time-out makes such a run possible if and only if it visits an open connection that the same iteration is still to handle as writable, without a hang-up |
| EchoDoom.UndrainedTimeoutCrashes | examples/EchoServer.cc:84-94 | after such a time-out that run exists in every reachable state, whatever else is active, queued or expired |
| EchoCrash.RiskyIsMet | examples/EchoServer.cc:84-94 | a reachable calm state with a risky time-out |
| EchoCrash.EchoServerCrashes | leven/TcpConnection.cc:217-217 | a whole run of the echo server, for every timeout, that fails the assert |
| TcpConnections.TcpConnection.ConnectEstablished | leven/TcpConnection.cc:50-56 | connected and registered for reading |
| TcpConnections.TcpConnection.SendInLoop | leven/TcpConnection.cc:85-129 | new state and pushed jobs are the specification's; no assert fails while EPOLLOUT agrees with the output buffer |
| TcpConnections.TcpConnection.Send | leven/TcpConnection.cc:69-83 | on the loop thread new state and pushed jobs are the specification's; on another thread the payload is queued and the loop woken; given up unless connected |
| TcpConnections.TcpConnection.SendBuffer | leven/TcpConnection.cc:136-145 | likewise for the input buffer, emptied unless the send was given up |
| TcpConnections.TcpConnection.Shutdown | leven/TcpConnection.cc:153-158 | on the loop thread new state is the specification's |
| TcpConnections.TcpConnection.ShutdownInLoop | leven/TcpConnection.cc:166-173 | attempts SHUT_WR exactly when open and not writing |
| TcpConnections.TcpConnection.ForceCloseConnection | leven/TcpConnection.cc:175-183 | queues the forced close unless disconnected |
| TcpConnections.TcpConnection.StopReading | leven/TcpConnection.cc:193-199 | EPOLLIN off, registration updated |
| TcpConnections.TcpConnection.StartReading | leven/TcpConnection.cc:201-207 | EPOLLIN on, registration updated, whatever the state |
| TcpConnections.TcpConnection.HandleWrite | leven/TcpConnection.cc:231-256 | new state and pushed jobs are those of Flush, which PipesRefine.FlushTakes ties to the kernel's answer: a prefix is written, and with the last byte it stops writing, shuts down if asked and queues the write-complete job |
| TcpConnections.TcpConnection.HandleClose | leven/TcpConnection.cc:258-266 | closed, unregistered, and erased from the server's set and the client's map |
| TcpConnections.TcpConnection.HandleRead | leven/TcpConnection.cc:214-229 | a failed read changes nothing, an empty one closes, any other is received and echoed |
| TcpConnections.TcpConnection.HandleEvents | leven/Channel.cc:31-46 | for every event that fails no assert, of an open or closed connection: close, read and write callbacks leave what Served says |
| EchoServe.DispatchServes | leven/Channel.cc:31-46 | Served is what the reactor's step does to that connection and the pending jobs, and it fails the same assert |
| TcpConnections.TcpServer.NewConnection | leven/TcpServer.cc:24-34 | the new connection is established, registered, in the set, watched and has its high-water mark |
| TcpConnections.TcpServer.CloseConnection | leven/TcpServer.cc:36-41 | erased from the set and from the client's map |
| TcpConnections.EchoServer.OnConnection | examples/EchoServer.cc:41-51 | up: high-water mark and expiry; down: forgotten |
| TcpConnections.EchoServer.OnMessage | examples/EchoServer.cc:53-62 | all input is sent and the expiry renewed |
| TcpConnections.EchoServer.OnWriteComplete | examples/EchoServer.cc:64-70 | reading on, and the expiry renewed only if it was off |
| TcpConnections.EchoServer.OnHighWaterMark | examples/EchoServer.cc:72-76 | reading off, expiry after twice the timeout |
| EventLoops.NoLostWakeup | leven/EventLoop.cc:48-70 | under every interleaving epoll_wait never blocks with a job pending or a quit requested and nobody about to wake it, if and only if no job was queued before loop() |
| EventLoops.JobsConserved | leven/EventLoop.cc:89-112 | jobs run, rest of the batch and pending jobs are all recorded pushes in lock order |
| EventLoopRuns.AskedJobsConserved | leven/EventLoop.cc:89-112 | under every interleaving they are the jobs queued before loop() followed by those of the calls of queueInLoop read off the run: none is lost, invented or overtaken |
| EventLoopRuns.AskedJobsRun | leven/EventLoop.cc:151-164 | once a doPendingJobs has ended, every job asked for before its swap has run, and nothing else |
| EventLoopRuns.QueueInLoopMoves | leven/EventLoop.cc:102-112 | the moves of queueInLoop, undisturbed, do what the method of the class does |
| EventLoopRuns.TurnRunsPending | leven/EventLoop.cc:48-61 | an undisturbed turn of the loop reads the eventfd if it was reported, runs every pending job in order, and waits again unless quit() was called |
| EventLoopRuns.EventfdExact | leven/EventLoop.cc:130-172 | under every interleaving the counter is the number of wakeups written since it was last read, up to its maximum |
| EventLoopRuns.OwingExactly | leven/EventLoop.cc:102-112 | a thread has its wakeup still to write exactly between its push, or its quit(), and that wakeup |
| EventLoopRuns.QuitsExactly | leven/EventLoop.cc:48-70 | the loop is left at a test of the flag if and only if quit() was called before, and is never entered again |
| EventLoops.OneBatch | leven/EventLoop.cc:151-164 | one doPendingJobs runs exactly the jobs present at its swap, whatever is queued meanwhile |
| EventLoops.EventLoop.QueueInLoop | leven/EventLoop.cc:102-112 | appends the job, and writes the eventfd if called elsewhere or by a running job |
| EventLoops.EventLoop.QuitLoop | leven/EventLoop.cc:63-70 | sets the flag, and writes the eventfd if called elsewhere |
| EventLoops.EventLoop.Wakeup | leven/EventLoop.cc:130-135 | leaves the eventfd readable, also when its counter is full |
| EventLoops.EventLoop.HandleRead | leven/EventLoop.cc:166-172 | drains the eventfd |
| EventLoops.EventLoop.DoPendingJobs | leven/EventLoop.cc:151-164 | runs exactly the jobs that were pending, in order, also if one of them quits the loop; what they queued is pending, and if that is anything the eventfd is readable |
| ThreadPools.NextKeeps | leven/util/ThreadPool.cc:60-103 | every step of every worker, producer and of stop keeps the monitor's invariant |
| ThreadPools.NoLostWorkerWakeup | leven/util/ThreadPool.cc:89-103 | while the pool runs and a worker sleeps un-notified, at most as many tasks are queued as workers are notified |
| ThreadPools.NoLostProducerWakeup | leven/util/ThreadPool.cc:67-76 | while a producer sleeps un-notified, at most as many slots are free as producers are notified |
| ThreadPools.NeverAllAsleep | leven/util/ThreadPool.cc:60-103 | no reachable running state has work to do and everyone asleep |
| ThreadPools.TasksConserved | leven/util/ThreadPool.cc:60-103 | the queue is bounded, and submitted tasks are those taken followed by those queued, in order |
| ThreadPoolRuns.CallKeepsTask | leven/util/ThreadPool.cc:60-77 | a call of runTask keeps its task through every step of every thread, until it finds room, queues that task at the end and returns |
| ThreadPoolRuns.EveryTaskAccounted | leven/util/ThreadPool.cc:60-103 | over every run, for each task: the calls that gave it, read off the run, are as many as its returns, its executions in progress, its places in the queue and the calls that still carry it together |
| ThreadPoolRuns.QueuedTaskCanRun | leven/util/ThreadPool.cc:79-103 | in every reachable running state with a task queued some worker can take the first within three actions, disturbing no other |
| ThreadPoolRuns.CallCanReturn | leven/util/ThreadPool.cc:67-76 | a call that is not waiting and finds room can return at once, and wakes one sleeping worker if there is one |
| ThreadPoolRuns.IdleWorkerSleeps | leven/util/ThreadPool.cc:89-94 | with nothing queued a worker goes to sleep and does nothing else |
| ThreadPoolRuns.TakesOneMore | leven/util/ThreadPool.cc:79-103 | over every run each worker takes at most one task while running_ is false, counted off the run |
| ThreadPoolStop.NobodySleepsAfterStop | leven/util/ThreadPool.cc:28-41 | after stop's notify_all no worker sleeps or ever will |
| ThreadPoolStop.StopLeavesTasks | leven/util/ThreadPool.cc:79-103 | however stop is scheduled, it leaves at least the queued tasks that outnumber the workers in takeTask or committed to it when the flag fell, and exactly those if no call of runTask was under way |
| ThreadPoolStop.TakesAtMostOneMore | leven/util/ThreadPool.cc:79-103 | in every reachable state each worker took at most one task since the flag fell |
| ThreadPoolStop.DiscardsNothingExactly | leven/util/ThreadPool.cc:28-41 | no schedule leaves a task if and only if, when the flag falls, no call of runTask is under way and each queued task has a worker in takeTask or committed to it |
| ThreadPoolStop.StopDiscards | leven/util/ThreadPool.cc:28-41 | a run that leaves a task that nobody takes |
| ThreadPoolStop.StoppingEnabled | leven/util/ThreadPool.cc:79-103 | while stopping, every worker that has not exited can take a step that waits for nobody |
| ThreadPoolStop.StoppingProgress | leven/util/ThreadPool.cc:79-103 | and every step that changes a worker brings the workers nearer to their exit |
| ThreadPoolStop.WorkersExit | leven/util/ThreadPool.cc:28-41 | from every reachable state after notify_all, under every schedule: at most three steps per worker, and no step is possible any more exactly when all have exited |
| ThreadPoolStop.StopCanReturn | leven/util/ThreadPool.cc:28-41 | stop can return after as many steps as the workers have left, and its join |
| ThreadPools.ThreadPool.RunTask | leven/util/ThreadPool.cc:60-77 | one stretch of runTask under the mutex is the step Put, whose task ThreadPoolRuns.CallKeepsTask fixes |
| ThreadPools.ThreadPool.TakeTask | leven/util/ThreadPool.cc:89-103 | one stretch of takeTask under the mutex is the step Take |
| ThreadPools.ThreadPool.StopRunning | leven/util/ThreadPool.cc:30-32 | clearing the flag is the step StopFlag |
| ThreadPools.ThreadPool.NotifyAll | leven/util/ThreadPool.cc:34-37 | notify_all is the step StopNotify: every sleeping worker is notified |
| Timers.DueSplits | leven/TimerQueue.cc:118-126 | getExpired returns exactly the entries due by now, in order, and keeps exactly the others |
| Timers.DurationExact | leven/TimerQueue.cc:35-43 | the armed value is legal, never zero, and is max(ts - now, 1 ms) to the nanosecond |
| Timers.ApplyKeeps | leven/TimerQueue.cc:74-92 | adding and cancelling keep set, timers, batch and kernel timer in agreement; what is added is in TimerClock.AddsAsAsked |
| Timers.FireOneKeeps | leven/TimerQueue.cc:99-111 | firing one timer of the batch, with any calls by its callback, adds one run to that timer only |
| Timers.HandleReadFiresExactly | leven/TimerQueue.cc:94-115 | handleRead runs exactly the timers due, once each even if the next deadline is already past, and keeps the invariant |
| Timers.ArmedInTime | leven/TimerQueue.cc:74-116 | in every reachable state with a queued timer the kernel timer is set, for max(deadline, setting time + 1 ms) at the latest |
| Timers.IndexAgrees | leven/TimerQueue.cc:74-92 | in every reachable state each timer that exists has exactly one entry, under its own deadline, and a new entry never collides |
| Timers.CancelRemoves | leven/TimerQueue.cc:86-92 | cancelling takes out that timer's entry and no other |
| Timers.NeverAgain | leven/TimerQueue.cc:86-111 | a timer that is gone runs in no continuation |
| Timers.OneShotGone | leven/TimerQueue.cc:105-111 | a one-shot timer that ran is gone |
| Timers.OnTime | leven/Timer.h:30-36 | every run came at or after its deadline, a one-shot timer ran at most once, and a periodic one that ran k times is due at its first deadline plus k intervals |
| Timers.NeverTooOften | leven/Timer.h:32-36 | by any time a periodic timer ran at most floor((now - first) / interval) + 1 times |
| TimerClock.AddsAsAsked | leven/TimerQueue.cc:74-84 | in every reachable state a new timer gets the deadline and the interval asked for, repeats if and only if the interval is positive, and has its entry; no other timer or entry changes |
| TimerClock.CreatedAsAsked | leven/Timer.h:20-26 | over every run each timer has the first deadline and the interval of the call, in a callback or not, that created it, read off the run |
| TimerClock.RequeuedExactly | leven/TimerQueue.cc:105-111 | a timer that is due is queued again, one interval later, if and only if it repeats and no callback that runs after its own cancels it |
| TimerClock.SettingExact | leven/TimerQueue.cc:35-43 | the kernel timer is set for exactly max(ts, now + 1 ms) |
| TimerClock.StepTicks | leven/TimerQueue.cc:74-126 | every step rings, adds and cancels the alarms that the clock says, in the order of their deadlines, and sets the kernel timer as it says |
| TimerClock.RunTicks | leven/TimerQueue.cc:74-126 | so does every run from the empty queue |
| TimerClock.TicksThroughOnce | leven/TimerQueue.cc:74-126 | and the clock leaves no choice: a run has one outcome |
| TimerQueues.Timer.Restart | leven/Timer.h:32-36 | moves the deadline by one interval |
| TimerQueues.Timer.Cancel | leven/Timer.h:37-41 | marks the timer |
| TimerQueues.TimerQueue.DurationUntil | leven/TimerQueue.cc:35-43 | seconds and nanoseconds that add up to max(ts - now, 1 ms) |
| TimerQueues.TimerQueue.AddTimerTask | leven/TimerQueue.cc:74-84 | new state is the specification's, which TimerClock.AddsAsAsked ties to the arguments: inserted, and the kernel timer set if it is the earliest |
| TimerQueues.TimerQueue.CancelTimerById | leven/TimerQueue.cc:86-92 | new state is the specification's: marked, erased, deleted |
| TimerQueues.TimerQueue.GetExpired | leven/TimerQueue.cc:118-126 | splits the set at the lower bound of now plus one nanosecond |
| TimerQueues.TimerQueue.Fire | leven/TimerQueue.cc:99-111 | callback, record, then restart or deletion |
| TimerQueues.TimerQueue.HandleReadable | leven/TimerQueue.cc:94-115 | the whole batch, and the kernel timer set again, as the specification says |

## Left out

- System calls, logging, addresses, `Acceptor` and `Connector`: results of system calls are parameters; a new connection is one step.
- Object lifetime: connections, channels and timers' callbacks live as long as the run, so the unused tie of `leven/Channel.cc:27` plays no part, nor do the asserts of the destructors (`leven/Channel.cc:22`, `leven/TcpConnection.cc:44`).
- EchoDoom.CanCrashExactly: where a time-out has erased a registered closed connection from the client's map, the source destroys it and the crash does not come; EchoHeld.HeldCrashesExactly is the statement for the other states.
- Calls of shutdown and forceClose by other threads: both are one step of the loop thread here, since the state test and the exchange of the source are separate.
- Channel error callbacks: `handleError` only logs, and is no step.
- EventLoops.EventLoop.DoPendingJobs: queued[i] is all that is queued while job i runs, by the job or by other threads, with the eventfd writes done; pushes whose write is still to come are in the interleavings of EventLoops.NoLostWakeup.
- Interleaving inside a handler: other threads push jobs between steps of the loop thread in `Reactor`, not in the middle of one callback; in `EventLoops` they do so everywhere.
- Callbacks: a callback is the list of library calls it makes, with their kernel answers, fixed before it runs.
- `runInLoop(const Task&)`: not reached by the code modelled.
- `quit()` before `loop()` resets the flag: `EventLoops` starts inside `loop()`.
- Buffers.Buffer.ReadFd: takes the bytes that `readv` delivered, at most what the two segments hold, instead of calling it.
- Buffers.Buffer.AppendInt: the source's four functions are one method with a width parameter, as are the prepend, peek and read families; the argument is required to fit the width, as its C++ type does.
- TcpConnections.TcpConnection.HandleEvents: with the echo server as client; arbitrary clients are covered by the reactor's steps.
- TcpConnections.TcpConnection.Shutdown: the branch for other threads, which queues `shutdownInLoop`, is not modelled.
- TcpConnections.TcpConnection.HandleClose: calls the server's method directly in place of the stored close callback.
- ThreadPools.NoLostProducerWakeup: says nothing of who will wake the producers still waiting when the pool is stopped, which `stop` never notifies.
- ThreadPoolStop.WorkersExit: assumes that tasks return.
- Thread pool tasks that call `runTask` themselves, and the thread-initialisation callback.
- Timers.CancelRemoves: for queued timers; cancelling one that has fired or is in the batch being run frees a dangling object in the source, and such a call is ignored here.
- Timers.NeverTooOften: time is one clock that the steps read; onTimeout of the echo server reads it once per call.
- Timer addresses: a new timer has a new number, so the reuse of a freed address does not arise; 0 stands for the null pointer.
- Adding or cancelling timers from other threads: `runInLoop` makes it a job, modelled as the client call that job makes.
- `TcpServerThreaded`, the character generator, searches for CRLF and end of line, growth of the event array: no property of their own here.
- Integer widths of sizes, timestamps and descriptors: unbounded, except for the Int family and the eventfd counter.
