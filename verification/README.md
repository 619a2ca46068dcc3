# A model of the scheduled file server

The program is a multithreaded file server. Every connection carries one request (`GET`, `PUT` or
`HEALTH`); an admission thread reads the header line and puts the request in one shared queue;
worker threads take requests from the queue, serve one bounded round of each, and put an unfinished
request back. Four policies (`fcfs`, `sjf`, `rr`, `drr`) decide which request is next and how many
bytes one round may send. This project models the server and the client half that talks to it, and
proves what the rounds, the queue, the life cycle, the directory and the wire protocol promise.

Bytes are `char`s and byte strings are `string`s. `uint64_t` quantities are natural numbers with the
bound 2^64 - 1 written out where it matters: number parsing, the saturating allowance, the sizes of
files.

| File | What it holds |
|---|---|
| `Bytes.dfy` | decimal numbers, sums, ceiling division, products by a quantum |
| `Lines.dfy` | what a line of a file is |
| `Rounds.dfy` | one round of a GET as a function of the file and the request's counters; whole runs of rounds |
| `Protocol.dfy` | tokenizer, number parser, request and response lines, file names |
| `Net.dfy` | a connected socket and the loops that frame lines and exact-length bodies |
| `Files.dfy` | inodes, the directory, open descriptors |
| `Slice.dfy` | the `Request` object and one round of it, as loops over short reads and writes |
| `Queue.dfy` | the shared queue, the four schedulers, and runs of pushes and pops |
| `Arrivals.dfy` | admission threads that stamp a request and push it later |
| `Monitor.dfy` | the mutex and condition variable inside the queue |
| `Server.dfy`, `Safety.dfy` | acceptor, admissions, workers and shutdown as a transition system, and what every step keeps |
| `Turns.dfy` | which queued request a worker takes, over whole runs of the life cycle; every request can be served |
| `Drain.dfy`, `Fairness.dfy` | total work and termination; turns, fairness and waiting time |
| `Waking.dfy` | the life cycle and the monitor together: workers that sleep in the queue |
| `Storage.dfy` | every interleaving of the file system calls of concurrent GETs and PUTs |
| `Admission.dfy`, `Client.dfy` | one connection's admission; the client's `put` and `get` |
| `Exchange.dfy` | one upload, client and server together, call by call, when no call fails |
| `Faults.dfy` | the same when any call of either side may fail |
| `EndToEnd.dfy` | put a local file, get it back |

A call on a socket or a file may always come back short, may be interrupted a finite number of times,
and may fail. A `reliable` socket, file or directory is one whose calls fail only when they cannot make
progress; it appears only where a contract says that an operation succeeds. A file that a GET has opened
may be cut short by somebody else before or between its rounds: the request keeps the contents its size
was taken from, and `Slice.Serves` says that all of them are still there.

The models meet in these places. `Slice.ServeGet` and `Slice.ServePut` are proved to take the steps
`Rounds.GetRound` and `Rounds.PutTake`, and these same functions are the slice step of `Server`.
`Queue.RequestQueue.PopPick` and the pop step of `Server` both take `Queue.PickIndex`, and the runs of
`Queue` are those of the queue in runs of `Server` (`Turns.StaysMirror`). Each move of
`Waking` is a step of `Server`, a step of `Monitor`, or one of each on the same queue.
`Net.Socket.ReadHeaderLine` and both readers of `Exchange` are folds of `Net.ScanPiece`; `Faults` moves
by the steps of `Exchange` until a call fails; `EndToEnd.GetAfterUpload` starts from what a run of
`Exchange` has installed.

## Model

| member | source | states |
|---|---|---|
| Lines.LinesPartitionFile | src/server/slice.cpp:107-134 | the lines met by the round loop concatenate to the file; each is non-empty, holds a newline nowhere but at its end, and only the last may lack one |
| Slice.LineLengthAt | src/server/slice.cpp:31-45 | the buffered scan, with reads of any length, returns the distance to and including the next newline or else the rest of the file; 0 only at the end, or when a read failed or the file has been cut short |
| Slice.Batch.AppendRange | src/server/slice.cpp:47-61 | appends exactly that range of the contents, or leaves the batch as it was, and then a read failed or the file has been cut short |
| Slice.StreamRange | src/server/slice.cpp:63-74 | sends exactly that range of the contents, or a prefix of it, and then a call failed or the file has been cut short |
| Slice.Batch.Flush | src/server/slice.cpp:76-85 | the pending bytes move to the wire and the batch is empty; on failure a prefix of them does |
| Slice.EmitLine | src/server/slice.cpp:126-132 | wire plus batch grow by exactly the line; the batch always holds the last whole lines, fewer than `p`, and is written when it has `p` of them or a line over 64 KB follows |
| Slice.NextLine | src/server/slice.cpp:107-136 | one pass of the line loop is one unfolding of `Rounds.Sweep`, with wire plus batch equal to the bytes of the file since the round began |
| Slice.EscapeRound | src/server/slice.cpp:112-118 | the over-long line goes out whole, is logged, and ends the round as done or preempted |
| Slice.CutRound | src/server/slice.cpp:119-124 | the batch is out, the rest of the allowance is forfeited under rr and becomes the deficit under drr |
| Slice.ServeGet | src/server/slice.cpp:87-142 | one round changes no other field of the request, leaves it in the state `Rounds.GetRound` gives and the wire longer by the owed `OK` line and exactly the lines of the round, for every `p`; a failed round leaves a prefix of that, and some call failed or the file has been cut short |
| Slice.ServeGetToEnd | src/server/slice.cpp:87-142 | all rounds of a GET put `OK n` and the whole contents on the wire in exactly `TotalRounds` rounds, and leave the counters of the row: no deficit, under rr the forfeit `Unused` and the lengths of the lines longer than `Q`, under the other policies neither; on failure a prefix of the wire, and only if some call failed or the file has been cut short |
| Rounds.GetRoundKeepsInv | src/server/slice.cpp:96-142 | the invariant between rounds (line boundary, deficit or forfeit accounting) is kept by every round, each preempted round makes progress in offset plus deficit, a finishing round ends at the end of the file |
| Rounds.TotalIsExact | src/server/slice.cpp:87-142 | the request is unfinished after `k` rounds exactly when `k` is less than `TotalRounds`, and that round finishes it |
| Rounds.UnboundedTotal | src/server/slice.cpp:96-98 | fcfs and sjf finish a GET in one round with no deficit and no forfeit |
| Rounds.DrrRound | src/server/slice.cpp:98-101 | a drr round is preempted exactly when one more quantum does not cover the file, and then its allowance was not the saturated one |
| Rounds.DrrClosedForm | src/server/slice.cpp:98-124 | after `k` preempted drr rounds offset plus deficit is `k*Q`, the deficit is shorter than the next line, nothing is forfeited, and the offset is the greatest line boundary not past `k*Q` |
| Rounds.DrrTotal | src/server/slice.cpp:98-142 | a drr GET takes `max(1, ceil(bytes/Q))` rounds whatever its lines |
| Rounds.DrrLineLeavesInRound | src/server/slice.cpp:98-124 | a line that ends at `e` is out after `k` rounds exactly when `e <= k*Q` |
| Rounds.RrAccounting | src/server/slice.cpp:111-124 | after `k` preempted rr rounds offset plus forfeited bytes is `Q` for each round without an escape plus the lengths of the escaped lines; the forfeit is at most the file size; every round advances |
| Rounds.RrForfeits | src/server/slice.cpp:111-141 | after any number of rr rounds, the last included, the forfeited bytes are the sum, over the preempted rounds that start with a line of at most `Q` bytes, of `Q` minus what the round sent: the completing round and the rounds of over-long lines forfeit nothing |
| Rounds.RrEscapes | src/server/slice.cpp:111-118 | at every point of an rr GET the logged lengths followed by those of the over-long lines still to come are the lengths of all lines longer than `Q`, in order |
| Rounds.FinalState | src/server/slice.cpp:107-141 | what a completed GET leaves in each counter, for all four policies |
| Rounds.RrEscapesCount | src/server/slice.cpp:111-118 | over a completed rr GET the escape fires once for each line longer than `Q` and never otherwise |
| Rounds.RrOptimal | src/server/slice.cpp:107-136 | no way of cutting the lines into consecutive groups of at most `Q` bytes or one line has fewer groups than an rr GET has rounds |
| Rounds.RrAttains | src/server/slice.cpp:107-136 | the rounds themselves are such a cutting, so the greedy rounds are optimal |
| Rounds.RrTwoRounds | src/server/slice.cpp:111-124 | two consecutive rr rounds send more than `Q` bytes |
| Rounds.RrWorstCase | src/server/slice.cpp:107-136 | an rr GET takes at most `2*floor(bytes/(Q+1)) + 1` rounds |
| Rounds.DrrAheadOfRr | src/server/slice.cpp:96-136 | if no line exceeds `Q`, drr is at every round at least as far as rr and never needs more rounds |
| Rounds.PutRounds | src/server/slice.cpp:171-190 | a PUT takes `max(1, ceil(bytes/Q))` rounds under rr and drr and one otherwise |
| Slice.StartPut | src/server/slice.cpp:156-169 | the first round opens the temporary file and sends `OK 0`; an existing temporary file is emptied; later rounds do nothing; it fails only at the open, with the error line, or at that send |
| Slice.TakeBody | src/server/slice.cpp:171-188 | the bytes of the round move in order from leftover and connection to the temporary file; written plus leftover plus unread stays the same string; a short body and a failed write each send their own error line and nothing else, and on a working connection the body is short only if the bytes are not there |
| Slice.InstallPut | src/server/slice.cpp:192-201 | one rename moves the temporary file onto the destination, then `OK 0` is sent; a failed rename changes no name and sends one error line; the names change and the PUT fails exactly when the send of that `OK` is what failed |
| Slice.ServePut | src/server/slice.cpp:155-202 | one round takes `min(Q, remaining)` bytes, changes no counter but `rounds`, and touches only its own temporary name unless it installs; a failed round has installed the whole body if the send of the last `OK` failed, and has changed no name but the temporary one if any other call did; what it has told the client is the owed `OK` line and then part of one error line, all of it on a working connection, or less than the whole of the `OK` line whose send failed; it does not fail if no call fails and the bytes are there |
| Slice.ServePutToEnd | src/server/slice.cpp:155-202 | all rounds of a PUT leave the destination holding exactly the first `bytes` bytes of the body stream, two `OK 0` lines on the wire, the rest of the stream unread, in `PutLeft` rounds; a failed PUT is installed if the send of the last `OK` failed and has changed no name but its temporary one otherwise, and the wire holds what `Slice.Failed` says of that failure |
| Slice.ReleaseRequest | src/server/slice.cpp:217-226 | the descriptor is closed and the temporary name of an unfinished PUT is gone |
| Files.Inode.WriteAll | src/server/slice.cpp:144-153 | all bytes are appended, or a prefix of them and a write failed |
| Net.Socket.SendAll | src/common/protocol.cpp:235-245 | all bytes are on the wire in order, or less than all of them and the connection failed, through any short sends and interrupts |
| Net.Socket.ReadHeaderLine | src/common/protocol.cpp:157-206 | the result is the fold of `ScanPiece` over the pieces received; the pieces and what is unread are the original stream; an error is a line too long, or one of the three ways a `recv` brings nothing |
| Net.Framing | src/common/protocol.cpp:182-204 | however the stream is chopped: an accepted line is the bytes before the first newline, leftover plus unread is the rest; a newline at index 8192 or less is never refused, one past 8703 never accepted |
| Net.FramingBetweenBounds | src/common/protocol.cpp:182-204 | for every first newline strictly between the bounds there is a chopping that accepts the line and one that refuses it |
| Net.Socket.ReadExact | src/common/protocol.cpp:208-229 | on success exactly `n` bytes, leftover first; what was taken plus what is left is the original stream; on a reliable connection it succeeds exactly when `n` bytes are there |
| Protocol.SplitWs | src/common/protocol.cpp:16-27 | the loop computes `Tokens` |
| Protocol.TokensMeaning | src/common/protocol.cpp:16-27 | the tokens are non-empty and space-free and lose nothing of the line but its spaces |
| Protocol.TokensJoin | src/common/protocol.cpp:16-27 | splitting inverts joining tokens with single spaces |
| Protocol.ParseU64 | src/common/protocol.cpp:29-40 | accepts exactly the non-empty digit strings of value below 2^64, and returns the value |
| Bytes.ValDec | src/common/protocol.cpp:93 | the value of a printed number is the number |
| Bytes.LeadingZero | src/common/protocol.cpp:29-40 | leading zeros do not change the value |
| Bytes.ValAppend | src/common/protocol.cpp:29-40 | digits count by position: the value of `a` followed by `b` is the value of `a` times ten to the length of `b`, plus the value of `b` |
| Bytes.DecCanonical | src/common/protocol.cpp:93 | a printed number has no leading zero |
| Protocol.ParseRequestLine | src/common/protocol.cpp:44-90 | a `GET`, a `PUT` and a `HEALTH` come from exactly the lines of their form, with that name and that count; every other line is rejected with the complaint for its kind |
| Protocol.RequestMeaning | src/common/protocol.cpp:44-90 | `Put(n, k)` if and only if the tokens are `PUT`, `n` and a non-empty digit string of value `k` below 2^64; `Get(n)` if and only if they are `GET` and `n`; `Health` if and only if they are `HEALTH`; otherwise the complaint that goes with the first token and the number of tokens |
| Protocol.RequestRoundTrip | src/common/client_ops.cpp:60-98 | parsing inverts the client's GET and PUT lines for every non-empty space-free name and every 64-bit size |
| Protocol.ParsedNamesAreTokens | src/common/protocol.cpp:44-90 | a parsed file name is never empty and never holds a space |
| Protocol.ParseResponseLine | src/common/protocol.cpp:100-124 | an `OK` comes from exactly the lines `OK d` with a 64-bit count `d`, an `ERR` from exactly the lines whose first token is `ERR`, with everything behind the first space as its reason; every other line is malformed |
| Protocol.ResponseMeaning | src/common/protocol.cpp:100-124 | the same of the response function that the round trip inverts |
| Protocol.ResponseRoundTrip | src/common/protocol.cpp:92-124 | parsing inverts `format_ok` for every 64-bit count and `format_err` for every reason |
| Protocol.PrintedLinesHaveOneNewline | src/common/protocol.cpp:92-98 | a printed response has its only newline at the end, for every newline-free reason |
| Protocol.SafeNamesAreEntries | src/common/protocol.cpp:126-132 | a name is accepted exactly when following it as the kernel does, from the served directory, leads to the entry of that name directly in that directory |
| Admission.AdmitConnection | src/server/main.cpp:162-226 | on every connection, a request that is taken asks for a name that followed from the served directory is an entry of it, and a PUT for at most 2^30 bytes; a connection that is not taken gets exactly one reply line. When the header line is at most 8192 bytes and the connection works, its tokens decide: an unsafe name, an over-large size and every line of no known form are refused, `HEALTH` is answered with the depth, a missing file is not found, and a request takes over the stream right after the newline; ids are spent on safe names within the size limit only; past 8703 bytes the line is refused as too long |
| Admission.DecideMeaning | src/server/main.cpp:174-197 | the decision that `Exchange` works with is that one, for every line |
| Queue.RequestQueue.Push | src/server/queue.h:14-20 | the request joins the tail |
| Queue.RequestQueue.PickSmallest | src/server/scheduler_sjf.cpp:11-17 | the scan returns the first position of the smallest size |
| Queue.FirstMinMeaning | src/server/scheduler_sjf.cpp:12-16 | that position holds a minimum and everything before it is strictly larger |
| Queue.RequestQueue.PopPick | src/server/queue.h:22-30 | removes and returns the request the policy picks and keeps the order of the others; nothing only when the queue is empty |
| Queue.Scheduler.Next | src/server/scheduler_rr.cpp:10-16 | the picked request leaves the queue, under sjf none queued is smaller, otherwise it was the head; its start time is set to the present when it is zero and left alone otherwise, and no other request's changes |
| Queue.Scheduler.Requeue | src/server/scheduler_drr.cpp:18 | a preempted request goes to the tail |
| Queue.FifoOrder | src/server/scheduler_fcfs.cpp:8-16 | under fcfs, rr and drr requests leave in the order they were pushed, in every run |
| Queue.FifoBoundedWaiting | src/server/queue.h:14-30 | a request pushed when `d` others are queued is exactly the `d+1`-st one to leave, whatever is pushed later |
| Queue.SjfOvertaking | src/server/scheduler_sjf.cpp:10-22 | in every run a request leaves before one pushed earlier only if it is strictly smaller |
| Queue.DrainSorts | src/server/scheduler_sjf.cpp:10-22 | emptying the queue yields a permutation of it, ordered by size and by push order among equals |
| Queue.DrainIsPlayed | src/server/queue.h:22-30 | that order is what a run of pops returns |
| Queue.SjfTies | src/server/scheduler_sjf.cpp:12-16 | an sjf queue empties in arrival order among equal sizes if and only if equal sizes are queued in arrival order |
| Queue.SjfArrivalOrder | src/server/scheduler_sjf.cpp:10-22 | in every run with pushes and pops interleaved, equal sizes come out in arrival order if and only if they are pushed in arrival order |
| Arrivals.ArrivalOrderKeptExactly | src/server/main.cpp:198-225 | in every run in which each stamped request is pushed in the end, sjf serves equal sizes in arrival order if and only if no push overtakes an earlier stamped request of the same size |
| Arrivals.OvertakenAdmission | src/server/main.cpp:204-225 | for every size there is a run in which two requests are stamped in one order, pushed in the other, and served against their stamps |
| Monitor.StepKeepsInv | src/server/queue.h:14-43 | every push, notification, test, spurious wake-up and shutdown step keeps the wake-up invariant |
| Monitor.NoLostWakeUp | src/server/queue.h:14-43 | in every reachable state with a sleeper, queued requests are at most woken threads plus pending notifications, and after shutdown a `notify_all` is pending |
| Monitor.QuietSleepersMeanIdle | src/server/queue.h:14-43 | if nobody is woken or about to notify, a sleeper means the queue is empty and open |
| Monitor.QueuedWorkMoves | src/server/queue.h:14-43 | with a request queued and a thread asleep, some thread can signal a sleeper or take a request now |
| Safety.StepKeepsInv | src/server/main.cpp:228-276 | every step of acceptor, admission, worker and main keeps: the admission counter, each request in exactly one place, the log and counters, the ids, the rounds owed |
| Safety.NothingLostOrDuplicated | src/server/main.cpp:228-276 | in every reachable state an unfinished request is in exactly one of queue, worker and admission, and a finished one has been released exactly once |
| Safety.ShutdownLosesNothing | src/server/main.cpp:316-327 | when all joins have returned the queue is empty, nobody holds a request, every request was released exactly once as done or failed, the CSV rows are the done ones with their true figures, and both counters agree with them |
| Safety.RowsAreExact | src/common/csv_writer.cpp:16-27 | in every reachable state each row carries its request's id, size, round count and forfeited bytes, and the last two are those of the request served alone: for a GET `TotalRounds` and, under rr, `Unused`; for a PUT `max(1, ceil(bytes/Q))` or 1, and 0 |
| Turns.PopTakes | src/server/scheduler_sjf.cpp:10-22 | a pop moves one queue entry into the worker's hands and keeps the order of the rest; under sjf nothing queued is smaller and everything ahead of it is strictly larger, otherwise it is the head |
| Turns.StaysMirror | src/server/queue.h:14-30 | in every run of the life cycle the queue and the requests taken are those of `Queue.Play` on the pushes and pops of the run, with the true sizes |
| Turns.SjfTurns | src/server/scheduler_sjf.cpp:10-24 | in every run of the life cycle under sjf a request is taken before one that was queued earlier, taken later or still queued, only if it is strictly smaller |
| Turns.FifoTurns | src/server/queue.h:14-30 | in every run of the life cycle under any other policy requests are taken in the order in which they were queued or requeued |
| Turns.LoneRequestIsServed | src/server/main.cpp:247-276 | from every reachable state with one queued request and a free worker there is a run in which it is served to its end, released and logged |
| Turns.EveryRequestCanBeServed | src/server/main.cpp:162-276 | for every policy, quantum and request there is a run of the server from its start that accepts, serves and logs the request as its one row |
| Server.ServeStep | src/server/main.cpp:247-263 | a slice adds one round, keeps the size, and lowers the rounds owed by one, or is the last and ends at the size |
| Drain.TotalWork | src/server/main.cpp:247-276 | a stopped server has given at most the sum of the rounds its requests need, and exactly that if none failed |
| Drain.TotalWorkBySize | src/server/slice.cpp:87-202 | under drr, fcfs and sjf that sum depends on the sizes alone: `max(1, ceil(bytes/Q))` or 1 for each request |
| Drain.DrainStep | src/server/main.cpp:247-276 | after shutdown every step but a repeated signal lowers a measure, also a round that sends nothing |
| Drain.DrainIsBounded | src/server/main.cpp:247-276 | so no run after shutdown is longer than that measure |
| Drain.ShutdownNeverStuck | src/server/main.cpp:316-327 | from the signal until the last join some thread can always take a step of the drain |
| Drain.DrainEndsStopped | src/server/main.cpp:316-327 | a run that cannot go on has reached the last join |
| Drain.ShutdownStep | src/server/main.cpp:316-327 | from the moment main has seen the signal, every step but another signal lowers a pair of measures: open admissions and joins first, rounds and workers second |
| Drain.ShutdownEnds | src/server/main.cpp:316-327 | in every endless run from that moment on another signal arrives, so the shutdown itself ends, also while admissions still enqueue |
| Waking.MoveKeepsInv | src/server/queue.h:14-43 | with workers that sleep in the queue, every move keeps the life-cycle invariant, the wake-up invariant, and that both see the same queue and flag |
| Waking.DrainNeverSleepsThrough | src/server/main.cpp:316-327 | in every reachable state between the signal and the last join some thread has a move other than a signal, a connection, a spurious wake-up or falling asleep: no worker sleeps through the drain |
| Fairness.TurnsAlternate | src/server/main.cpp:247-263 | with one worker and a tail-requeue policy, the rounds of two unfinished requests differ over any window by the difference of who is ahead, so by at most one |
| Fairness.DrrFairness | src/server/scheduler_drr.cpp:10-18 | with one worker under drr, over any window in which two non-empty GETs stay unfinished, the bytes sent differ by at most `Q + (LA-1) + (LB-1)` |
| Fairness.BoundedWaiting | src/server/main.cpp:247-263 | with one worker and at most `N` live requests, a request that needs `R` rounds is finished before `R*N` slices have passed |
| Storage.TempInjective | src/server/slice.cpp:159 | requests with different ids or names have different temporary names |
| Storage.StepKeepsInv | src/server/slice.cpp:87-202 | every single file system call of any request keeps: the directory holds complete versions, each writer is alone on its file, each reader's pinned contents are intact |
| Storage.NoTornReads | src/server/main.cpp:207-217 | in every interleaving a completed GET has sent `OK n` and exactly the version its file had at admission |
| Storage.DestinationChangesOnce | src/server/slice.cpp:192-198 | what a requested name leads to changes only by the rename of a complete body, in one step |
| Storage.PutCanBeFinished | src/server/slice.cpp:155-202 | from every state of every run a PUT that has not failed can be installed by its own calls alone, and no other requested name changes |
| Storage.GetCanBeFinished | src/server/slice.cpp:87-142 | from every state of every run a GET can be completed by its own calls alone, with the version it was admitted with |
| Storage.TempNameTears | src/server/slice.cpp:159 | if a requested name is the temporary name of another, there is a run in which a GET completes with half of a body that was never installed |
| Storage.NeverTornExactlyWhenClean | src/server/slice.cpp:155-202 | all completed GETs are whole in all runs if and only if no requested name is the temporary name of a requested name |
| Storage.TempNamesAreAccepted | src/common/protocol.cpp:126-132 | the temporary names of an accepted name pass file name validation and fit in a request line |
| Storage.NoStrayTemps | src/server/slice.cpp:217-226 | in every run every name holds a complete version or is where a PUT that is still writing collects its bytes |
| Client.BaseNameIsSuffix | src/common/client_ops.cpp:38-41 | the path is something empty or ending in a slash, followed by the base name |
| Client.GetFile | src/common/client_ops.cpp:92-132 | the request line is sent; success means the answer announces exactly the bytes that came next, and the output file holds them, or a prefix of them on a failing disk; with such an answer on a reliable connection and disk it succeeds; an `ERR` answer fails with its reason; a failure leaves the local names alone |
| Client.PutFile | src/common/client_ops.cpp:45-90 | success means header and body went out and two `OK` lines were read; no byte of the body goes out unless the first answer is an `OK`; an `ERR` answer fails with its reason; what is received behind the first newline is dropped, and on a reliable connection and disk it succeeds if the stream begins with an `OK` line and so does what is left of it then |
| Exchange.StepKeepsInv | src/common/client_ops.cpp:45-90 | every call of either side of an upload conserves the byte stream and both answers and keeps the server on track |
| Exchange.StepMeasure | src/common/client_ops.cpp:45-90 | every call of either side lowers a measure |
| Exchange.StuckMeansOver | src/server/slice.cpp:155-202 | an upload comes to rest only when the client has ended and the server has hung up: neither waits for the other for ever |
| Exchange.UploadInstalls | src/common/client_ops.cpp:45-90 | every whole run of an accepted upload, for every interleaving and chunking, policy and quantum, installs exactly the body, leaves nothing in between, and if the body is not empty reports success |
| Exchange.Completes | src/common/client_ops.cpp:45-90 | every run can be continued to a whole one |
| Exchange.EmptyUploadMayFail | src/common/client_ops.cpp:66-82 | for every empty upload there is a run that installs the file and reports failure |
| Exchange.SuccessReportedExactlyWhenNotEmpty | src/common/client_ops.cpp:66-89 | the client is told of its success in every whole run if and only if the body is not empty |
| Faults.MoveKeepsInv | src/server/slice.cpp:155-202 | every call of either side, working or failing, and every piece of an error line, keeps what the outcome says of the installed file and what the client can still hear |
| Faults.SuccessMeansInstalled | src/common/client_ops.cpp:66-89 | whatever call of either side fails and whenever, a client that reports success has its whole body installed |
| Faults.InstalledExactlyWhen | src/server/slice.cpp:192-201 | a logged PUT is installed; a failed PUT is installed if and only if the call that failed is the send of the last `OK`; what is installed is the body |
| Faults.InstalledWithoutRow | src/server/slice.cpp:200-201 | for every upload there is a run in which it is installed, fails and is not logged |
| Faults.FailedRoundComplains | src/server/slice.cpp:161-197 | what a failed round of `Slice` has sent on a working connection is what the failing step here leaves to be sent |
| Faults.FailureGivesNoSecondOk | src/server/slice.cpp:155-202 | whatever call of a PUT failed, nobody who reads what the server sent, however it is cut up, finds an `OK` line behind the first line |
| EndToEnd.HeadersAreTaken | src/server/main.cpp:178-196 | the header lines the client prints for a legal name are framed whole and taken as that GET and that PUT |
| EndToEnd.ServeUpload | src/server/main.cpp:162-226 | on a stream of header and body, admission and all rounds leave the body under its name and answer `OK 0` twice |
| EndToEnd.UploadWithFailures | src/server/main.cpp:247-276 | an admitted PUT on any connection and directory, its rounds, its release, and `Client.PutFile` on what the server sent: a reported success means the server installed the body; afterwards the directory has the new entry, or is as it was, without the temporary name in either case unless that could not be opened |
| EndToEnd.Download | src/common/client_ops.cpp:92-132 | admission, all rounds and the client's reading put the bytes of the file into the local output file |
| EndToEnd.GetAfterUpload | src/common/client_ops.cpp:45-132 | after any whole run of the two-sided upload, a directory whose entry holds what that run installed gives the uploaded body back |
| EndToEnd.PutThenGet | src/common/client_ops.cpp:45-132 | a local file is put by `Client.PutFile`, whatever answers the client reads; if that reports success, the server's half run on exactly what the client sent, and a later get, leave the same bytes in the output file, for every legal name, body up to 2^30 bytes, pair of policies and quanta, write grouping and chunking, when no call of the server or of the get fails |

## Where the code and its documentation differ

The model follows the code.

- The documentation says `sjf` breaks ties by earliest arrival. The code breaks them by the order of
  pushes (`src/server/scheduler_sjf.cpp:13-15`), and an admission stamps a request before it pushes it
  (`src/server/main.cpp:204-225`). `Arrivals.OvertakenAdmission` is a run against the stamps;
  `Arrivals.ArrivalOrderKeptExactly`, `Queue.SjfArrivalOrder` and `Queue.SjfTies` say exactly when the
  documented order is kept.
- The documentation says a concurrent GET never sees a half-written file. That holds exactly when no
  requested name has the form `<name>.tmp.<id>` of another requested name
  (`Storage.NeverTornExactlyWhenClean`), and such names are accepted (`Storage.TempNamesAreAccepted`).
- A `put` of an empty file can be reported as failed although the server installed it: the server sends
  both `OK 0` lines without waiting for anything in between, and the client drops what it received
  behind the first newline (`src/common/client_ops.cpp:66-82`). `Exchange.EmptyUploadMayFail` is such a
  run for every name; `Exchange.SuccessReportedExactlyWhenNotEmpty` is the exact condition.
- A header line of 8193 to 8703 bytes is accepted or refused depending on how it arrives
  (`Net.FramingBetweenBounds`).
- A PUT whose last `OK` cannot be sent counts as failed although the file is installed
  (`src/server/slice.cpp:194-201`). So a CSV row implies an installed file but not the converse:
  `Faults.InstalledWithoutRow` is such a run for every upload, and `Faults.InstalledExactlyWhen` says
  that a failed PUT is installed exactly when the call that failed is that last send.

## Left out

- Sockets, `accept`, `bind`, time-outs, deadlines, `setsockopt` and signals: a call that times out is a call that fails; a connection is an object that delivers its stream in pieces.
- Clock values and CSV text: `now` is a parameter of `Scheduler.Next`; the log is the list of finished requests with their figures, without the operation, the file name and the three time stamps.
- Configuration, command line and load driver; their bounds (a positive quantum under rr and drr) are the preconditions `Config.Valid`.
- Directories, special files and permissions under the served directory: opening a name finds a regular file or fails.
- Slice.ServeGet: a file may be cut short after it was sized, but its remaining bytes are those it had then; nobody overwrites a served file in place.
- An exception inside a slice: it is a failed slice, without the error line the worker then sends.
- The width of `rounds`: it is a natural number where the code has an `int`.
- `send_call_count`, `queue_depth` as a locked read, and log lines other than the over-long-line escape, whose lengths are kept in `Request.escapes`.
- Server.Finish: releasing, logging and counting a finished request is one step; the three are separate statements of one worker, and nothing reads them in between.
- Server.Do: a slice is one step of the life cycle; the interleaving of its calls with other requests is the subject of `Storage`, `Exchange` and `Faults`.
- Storage.Do: a second description of the rounds' file system calls, one step each and with nothing else of the request; it is not derived from `Slice.ServeGet` and `Slice.ServePut`, which treat one round as a whole.
- Arrivals.Do: a request refused after its stamp never reaches the queue and is not a step there.
- Queue.Scheduler: one class with a policy stands for the four scheduler classes, which differ only in the pick.
- Queue.RequestQueue.PopPick: the wait for a request or for shutdown is its precondition; `Monitor` and `Waking` cover the waiting.
- Slice.TakeTurn: the second half of `serve_put` is its own method; it is not a step of its own.
- Slice.NextLine: the body of the line loop of `serve_get` is its own method, and so are the three ways the round can end; the order of the tests and calls is the code's.
- Fairness.DrrFairness: for one worker only; the alternation of turns it rests on is a property of one worker's loop.
- EndToEnd.PutThenGet: the client's half of the upload runs first, on answers that are given, and the server's half then runs on what the client sent; that the two sides run together without blocking each other, and what the client then hears, is proved in `Exchange`, and `EndToEnd.GetAfterUpload` joins that to a later get.
- Client.PutFile: the local file is read as it is at that moment; a failed read leaves zeros in the body, as in the code, and then the contract says nothing of the bytes.
- Exchange.Legal: refused uploads are the business of `Admission.AdmitConnection` and are not run to their end in `Exchange`.
- Server restarts: temporary files left by a crash are files like any other, emptied when their name is used again.
