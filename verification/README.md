# Verification of tcerver's runtime, queue, request parsing and socket table

This project models the parts of tcerver whose correctness cannot be seen from one function, and proves
what they are for:

- **The coroutine runtime** (`src/Task.hpp`, `src/Scheduler.hpp`) is a step machine in `Runtime.dfy`: every
  lock, unlock, test, assignment, enqueue and pull is one step, and a run is any interleaving of any number
  of threads, schedulers and coroutines. What would be undefined behaviour (a destroyed frame, a null
  scheduler, resuming a handle that is null, dead or running, reading a result too early) sets `fault`.
  `RuntimeInvariant.dfy` has the invariant, `RuntimeSafety.dfy`, `RuntimeProgress.dfy`,
  `RuntimeShutdown.dfy`, `RuntimeHandler.dfy`, `RuntimeCoroutine.dfy` and `RuntimeOneThread.dfy` the theorems
  over all runs. `TaskMembers.dfy` has the
  same members as classes, with functions for what final_suspend and await_suspend do: the
  methods are proved equal to them, and so are the machine's steps when no other thread comes between.
- **The queue** (`src/MultiThreadQueue.hpp`): `MultiThreadQueue.dfy` has the class over an array, proved
  equal to a ring given as a value, and theorems over whole runs (a FIFO, the exact life of the reference
  that `pull` returns, amortised growth). `QueueMonitor.dfy` is its mutex and condition variable as a step
  machine with spurious wake-ups, and `QueueCalls.dfy` says what that means for the arguments and results of
  the calls.
- **Requests and responses** (`src/HTTPUnit.cpp`, `src/utilities.cpp`): `CString.dfy` has
  `incrementParse` and the exact separators for which it is substring search; `HttpSyntax.dfy` the formats
  (RFC 9112, sections 3 and 5, with the deviations of the code) as pure splitting and printing, with their
  round trips; `HttpParser.dfy` the parser that cuts a mutable buffer and keeps views into it, proved
  against that grammar; `QueryArgs.dfy` the query arguments, from a backtracking reading of the pattern.
- **The socket table** (`src/EPoll.cpp`): `SocketTable.dfy` has any number of event loops over one vector
  and one mutex, while the operating system hands out descriptor numbers again, and the two members that
  work on the table as a class; `SocketEvents.dfy` says what becomes of every event and every connection.

`Options.dfy` holds the option type. `dafny verify dfyconfig.toml` checks everything.

Where the code and its documentation differ, the model follows the code. `src/utilities.hpp:14-16` promises
the first match of any separator; `incrementParse` keeps that promise exactly for the separators that
`CString.Restartable` describes, a condition on the separator alone (`CString.FindsFirstIffRestartable`).
All separators of the program meet it; "aab" does not. Header values and the protocol keep their trailing
CR, the header ends only at a line that is exactly CR, and duplicate keys keep their first value, whereas
query arguments keep their last.

## Assumptions

- A coroutine body ends by `co_return` or by a `SocketException`, and awaits a scheduler before it first
  awaits a task (`Runtime.SchedulerFirst`), as all of the server's coroutines do (src/EPoll.cpp:46,
  src/EPoll.cpp:101, src/TCPServer.cpp:98, src/TCPServer.cpp:117, src/Logs.hpp:14). `Task<void>` relies on
  it: src/Task.hpp:166-168 has no null test.
- Progress is for coroutines that await only what they have called (`RuntimeProgress.OwnChild`,
  src/EPoll.cpp:106); serialisation for runs in which a coroutine that has awaited the one-thread scheduler
  never suspends again (`RuntimeOneThread.OnceOnly`, src/TCPServer.cpp:116-130); what it did before and who
  awaits it is free. Safety and shutdown need neither.
- In the runtime a push and a pull of the ready queue are one step each, which is what the theorems of
  `QueueMonitor` say of the queue, and a worker takes the pulled value inside the lock, which is the intent
  of src/Scheduler.hpp:66. `MultiThreadQueue.ReferenceLife` and, for any number of threads,
  `QueueMonitor.CopyFindsPulled` say exactly how long the reference that the code copies from outside the
  lock is good.
- `accept` and `open` return a descriptor that is not open; `epoll_wait` reports a descriptor at most once,
  and only registered ones; nobody but `delSocket` closes a client.
- `regex_search` is leftmost, and tries the ends of each piece of the pattern in the order of its lazy and
  alternative operators, with `$` matching only at the end of the text.

## Model

| member | source | states |
|---|---|---|
| RuntimeInvariant.StepKeepsInv | src/Task.hpp:53-133 | every step of every thread keeps the invariant: exact places of all handles, mutex ownership, what `finished`, `others`, `scheduler` and `result` say about each other, and no fault |
| RuntimeInvariant.KeepPushOther | src/Task.hpp:119-132 | registering an awaiter keeps it: the frame is still there, and the handle moves from the thread's stack to `others` |
| RuntimeInvariant.KeepRelease | src/Task.hpp:53-66 | one turn of the release loop keeps it: the scheduler is not null, and the handle moves from `others` to the end of the ready queue |
| RuntimeInvariant.KeepDestroy | src/Task.hpp:53-66 | a frame goes only after every awaiter has been released, and its handle is then nowhere |
| RuntimeInvariant.KeepResume | src/Scheduler.hpp:64-72 | a running worker resumes only handles that are not null, whose frames exist and are suspended |
| RuntimeInvariant.KeepFlood | src/Scheduler.hpp:50-57 | a step of the handler keeps the invariant, in which empty handles are only in queues whose scheduler has stopped |
| RuntimeCoroutine.CallMakesChild | src/Task.hpp:49-52 | a call runs the new body at once on the caller's thread, with nothing enqueued (initial_suspend never suspends), and the coroutine is the caller's child and of its form for ever |
| RuntimeCoroutine.CallReturns | src/Task.hpp:75-79 | a coroutine that is on no stack has given its caller its Task object, which any body can await |
| RuntimeCoroutine.BodyIsFree | src/Task.hpp:81-104 | nothing but the state of the program restricts a body: it can return any value, throw, call, and await any scheduler and any task |
| RuntimeCoroutine.EveryActionCounts | src/Task.hpp:53-132 | outside its body every action of a coroutine brings it nearer to it or to its end: four actions at most for an await, five and one for each awaiter at the end |
| RuntimeInvariant.StepEvolves | src/Task.hpp:53-133 | the only ways in which one step can change a coroutine's scheduler, target, registrations and the place of its handle |
| RuntimeSafety.RunKeepsInv | src/Task.hpp:53-133 | the invariant holds in every state of every run |
| RuntimeSafety.RunsNeverFault | src/Task.hpp:53-66 | no run touches a destroyed frame, uses a null scheduler, resumes a handle that is null, dead or not suspended, or reads a result too early |
| RuntimeSafety.NoMisuse | src/Scheduler.hpp:64-72 | the same in the terms of the states: at every resume of a running worker the handle is not null and its coroutine exists and is suspended; at every registration the promise exists; at every release the scheduler is not null and the awaiter is there; at every read the body has ended |
| RuntimeSafety.OneOwner | src/Scheduler.hpp:44-47 | in every reachable state a handle is in at most one place, in none once its frame is gone, and in exactly one while its frame exists and no scheduler has stopped; so nothing is resumed twice or by two workers |
| RuntimeSafety.PromiseOutlivesRegistration | src/Task.hpp:119-132 | `handle_.promise()` is dereferenced only with the mutex held, `finished` false and the frame alive, for any number of awaiters |
| RuntimeSafety.TaskMutexExcludes | src/Task.hpp:119-132 | no two coroutines are inside critical sections of the same task |
| RuntimeSafety.NoLostWakeUp | src/Task.hpp:53-66 | a coroutine whose await_suspend returned true has been enqueued exactly once for it, or is still registered once, with a task that has a scheduler and has not been through its release loop |
| RuntimeSafety.ResultBeforeResume | src/Task.hpp:119-133 | await_resume runs only after the body has ended; the first finds the value given to return_value, or a default value after a SocketException, and every later one a value that has been moved away |
| RuntimeSafety.ValueIsHandedOver | src/Task.hpp:67-133 | over any run, the first await_resume of a task whose body ends with return_value(v) comes after that and finds Stored(v); if the body ends by a SocketException it finds a default value |
| RuntimeProgress.WaitChain | src/EPoll.cpp:100-113 | following what an unfinished coroutine waits for ends at one that is on a thread or in a ready queue |
| RuntimeProgress.WorkersOutside | src/TCPServer.cpp:24-45 | at most as many workers are inside EPoll::wait as there are wait loops, so N of the 2N workers of `s_` are outside, and all workers of any other scheduler |
| RuntimeProgress.Progress | src/EPoll.cpp:100-113 | with nothing stopped, an unfinished handler or request coroutine waits, task by task, for one that is on a thread or in a ready queue; the thread that is to take that one further can take a step, or the thread can that has the mutex it is about to lock |
| RuntimeShutdown.RunKeepsEnough | src/Scheduler.hpp:50-72 | a stopped scheduler's queue, with what the handler still owes it, has an element for every worker that is about to pull |
| RuntimeShutdown.WorkerWindsDown | src/Scheduler.hpp:64-72 | over any continuation a stopped worker takes at most two more loop actions, at most one of them a pull |
| RuntimeShutdown.StoppedWorkersResumeNothing | src/Scheduler.hpp:64-72 | whatever a stopped worker still pulls, empty or not, it leaves the loop instead of resuming it |
| RuntimeShutdown.NeverHeldBack | src/Scheduler.hpp:50-72 | from the moment the handler owes nothing, a stopped worker whose last resume has returned is at every later moment back still, and has exited or can take its next loop action, whatever the others pull and however often the handler is entered again |
| RuntimeShutdown.TotalFalls | src/Scheduler.hpp:64-72 | a measure of all workers of a stopped scheduler falls by one with each of their loop actions and is changed by nothing else, over any continuation |
| RuntimeShutdown.StuckMeansExited | src/Scheduler.hpp:50-72 | whichever way the run goes on, where no worker of that scheduler has a loop action left all of them have exited |
| RuntimeShutdown.AllExit | src/Scheduler.hpp:50-72 | once every last resume has returned and the handler owes nothing, the run goes on to one in which every worker of the scheduler has exited, in exactly as many steps as the measure says |
| RuntimeHandler.HandlerStopsAll | src/Scheduler.hpp:50-57 | over any run and interleaving, when the handler returns every scheduler of the list has been stopped and has been given, since it was entered, at least one empty handle for each of its workers |
| RuntimeHandler.OncePerWorker | src/Scheduler.hpp:53 | the inner loop runs as often as the scheduler has workers |
| RuntimeHandler.ServerShutsDown | src/Scheduler.hpp:50-72 | a run in which the handler has been entered and has returned, and every worker is back from its last resume, goes on to one in which every worker thread of every scheduler has exited |
| RuntimeHandler.SigintHandlerIsSteps | src/Scheduler.hpp:50-57 | in every reachable state the machine's steps of the handler, uninterrupted, have on every scheduler the effect that SigintHandler has by its contract, and change nothing else |
| RuntimeOneThread.OneThreadSerialises | src/Scheduler.hpp:44-72 | on a one-thread scheduler the coroutines that awaited it run from there one at a time, in the order of enqueueing, each to its end before the next is resumed |
| RuntimeOneThread.EveryoneHasATurn | src/Scheduler.hpp:44-47 | each of them has a place in that order, as soon as it has pushed itself |
| TaskMembers.Scheduler.Enqueue | src/Scheduler.hpp:39-41 | the handle is appended to the ready queue |
| TaskMembers.Scheduler.SigintHandler | src/Scheduler.hpp:50-57 | every scheduler of the list is stopped and has, behind what was in its queue, one more empty handle per thread, and nothing else changes |
| TaskMembers.Promise.FinalSuspend | src/Task.hpp:53-66 | `finished` is set and all awaiters are enqueued, in order; without a scheduler `Task<T>` resumes them here and `Task<void>` is in order only if there are none |
| TaskMembers.Promise.Finish | src/Task.hpp:53-81 | the end of a coroutine: the result that the Task objects share is the value returned, or the default one after a SocketException, every awaiter has been dealt with, and the frame is gone |
| TaskMembers.Task.AwaitSuspend | src/Task.hpp:119-132 | true exactly if unfinished, and the awaiter is registered exactly then, in a frame that exists |
| TaskMembers.Task.AwaitResume | src/Task.hpp:133 | the first one hands over the value that was returned, or the default one after a SocketException, whether or not the frame is still there |
| TaskMembers.FinalSuspendIsSteps | src/Task.hpp:53-66 | in every reachable state, with a scheduler or without, the machine's steps of final_suspend, uninterrupted, have the effect that FinalSuspend has by its contract, and there is no null pointer in it |
| TaskMembers.AwaitSuspendIsSteps | src/Task.hpp:119-132 | in every reachable state the machine's steps of await_suspend, uninterrupted, have the effect that AwaitSuspend has by its contract |
| MultiThreadQueue.Queue.constructor | src/MultiThreadQueue.hpp:34-40 | an empty ring of one slot |
| MultiThreadQueue.Queue.Resize | src/MultiThreadQueue.hpp:42-58 | twice the slots, the elements unrolled from `top_` to the start of a new array, and how many were copied |
| MultiThreadQueue.Queue.PushBack | src/MultiThreadQueue.hpp:60-72 | the contents grow by the element at the end; a new array exactly if the old one was full |
| MultiThreadQueue.Queue.PullFront | src/MultiThreadQueue.hpp:74-81 | the contents lose their front, and the slot returned holds it |
| MultiThreadQueue.PushAppends | src/MultiThreadQueue.hpp:60-72 | pushing appends to the sequence read from `top_` around, at every wrap position, and keeps `tail_ == (top_ + curr_size_) % size_` |
| MultiThreadQueue.PullRemovesFront | src/MultiThreadQueue.hpp:74-81 | pulling removes its first element |
| MultiThreadQueue.FifoOverRuns | src/MultiThreadQueue.hpp:34-81 | over every run of pushes and pulls, what was in the ring and what was pushed is what was pulled and what is in the ring, in order |
| MultiThreadQueue.ReferenceLife | src/MultiThreadQueue.hpp:74-81 | with c slots and n elements left, the reference keeps its value and the array is not replaced through any mix of pulls and c-n-1 pushes, and the (c-n)-th push writes exactly that slot |
| MultiThreadQueue.ReferenceDiesAtOnce | src/MultiThreadQueue.hpp:74-81 | after a pull from a full ring the very next push overwrites what the reference points to |
| MultiThreadQueue.GrowthIsAmortised | src/MultiThreadQueue.hpp:42-72 | from an empty ring the size is a power of two, size - 1 elements have been copied, the size is 1 or at most 2*(peak - 1), and copies are at most twice the pushes |
| QueueMonitor.ConcurrentFifo | src/MultiThreadQueue.hpp:60-81 | in every interleaving the mutex excludes, and what was pulled by whichever threads is a prefix of what was pushed |
| QueueMonitor.NoLostSignal | src/MultiThreadQueue.hpp:60-81 | while a puller sleeps, every element has a wake-up under way: a woken puller or a pusher that has yet to notify |
| QueueMonitor.SettledSleeperMeansEmpty | src/MultiThreadQueue.hpp:60-81 | with no call under way but sleeping pulls, a sleeper means an empty queue |
| QueueMonitor.CopyFindsPulled | src/MultiThreadQueue.hpp:74-81 | in every interleaving, a caller that copies after the lock is gone finds what it pulled if fewer than c-n elements have been written since, and the newest element instead if exactly c-n have |
| QueueCalls.CallsAreFifo | src/MultiThreadQueue.hpp:60-81 | in every interleaving, what was pulled and then what is in the ring are the arguments of the calls of push that have written, in the order of their writes |
| QueueCalls.WriteIsArgument | src/MultiThreadQueue.hpp:60-67 | what a write puts in is the argument of its thread's last call of push |
| QueueCalls.BackFromPush | src/MultiThreadQueue.hpp:60-72 | a thread is back from a push only after its own write |
| QueueCalls.BackFromPull | src/MultiThreadQueue.hpp:74-81 | a thread is back from a pull only after its own take and its caller's copy |
| QueueCalls.PullGetsFront | src/MultiThreadQueue.hpp:74-81 | a caller of pull gets the element that was the front at its own take, if fewer than c-n elements have been written by the time of its copy, and with exactly c-n the newest one |
| QueueCalls.NobodyHeldUp | src/MultiThreadQueue.hpp:60-81 | in every reachable state a thread outside can begin any call, and one inside that does not sleep can go on, or the holder of the mutex can |
| QueueCalls.EveryActionCounts | src/MultiThreadQueue.hpp:60-81 | every action inside a call brings its thread nearer to the end of the call, but for a look that finds the queue empty |
| CString.IncrementParse | src/utilities.cpp:8-33 | the loop is the automaton of the separator |
| CString.AnswerIsMatch | src/utilities.cpp:8-33 | for every non-empty separator an index that is returned is a match |
| CString.FindsFirstIffRestartable | src/utilities.cpp:8-33 | least match, or -1 exactly if there is none, on all texts, if and only if no border of a prefix of the separator goes on differently |
| CString.EmptySeparator | src/utilities.cpp:8-33 | the empty separator is found where it should be exactly in the texts that are not empty |
| CString.DocumentedPromiseFails | src/utilities.hpp:14-16 | "aab" is in "aaab" and is not found |
| CString.FreshFirstCharacter | src/utilities.cpp:8-33 | separators whose first character does not recur are among those |
| HttpSyntax.RequestRoundTrip | src/HTTPUnit.cpp:108-164 | a request written with single spaces, LF-ended lines, ": " in its fields and a closing line CR LF is parsed back, if and only if method and path have no space, protocol and values no LF, and keys neither LF nor ": " |
| HttpSyntax.ParsedRequestIsWritten | src/HTTPUnit.cpp:108-164 | whatever parses is exactly the writing of what it parses to: one reading, nothing dropped, and the line before the body is CR alone |
| HttpSyntax.RequestLineFails | src/HTTPUnit.cpp:108-131 | what each error of the request line says about the text: no space, only one, or no LF behind the second |
| HttpSyntax.FieldsFail | src/HTTPUnit.cpp:132-164 | where the header fails: behind whole fields, at a text without LF, or at a line that is not CR and has no ": " |
| HttpSyntax.KeepsTheFirst | src/HTTPUnit.cpp:160 | what remains of the fields is exactly those that come first of their key |
| HttpSyntax.ResponseRoundTrip | src/HTTPUnit.cpp:165-184 | a response head with any body behind it is read back as version, status, all headers in order and body, if and only if version has no space, status and values no LF, and keys neither LF nor ": " |
| HttpSyntax.GetResponseHeaders | src/HTTPUnit.cpp:165-184 | the appending loop builds the printed head, and appending a body to it prints both |
| HttpParser.Cut | src/HTTPUnit.cpp:113-129 | one search and one NUL cut a C string in two at the first separator, or leave the buffer as it is |
| HttpParser.DispatchHTTP | src/HTTPUnit.cpp:108-131 | method, path and protocol exactly as the grammar splits them or its error, NULs over the three separators only, and where the headers start |
| HttpParser.DispatchHeader | src/HTTPUnit.cpp:132-164 | fails exactly where the grammar does; otherwise the entries read, after all NULs are written, as the first field of each key, every byte of the header is known, and the rest is untouched |
| HttpParser.ParseInPlace | src/HTTPUnit.cpp:23-36 | the request as a whole: the grammar's result or its error, all views reading their original text at the end, the body untouched, only separators overwritten, and the arguments of the path |
| HttpParser.PrintedRequestComesBack | src/HTTPUnit.cpp:108-164 | a request written so comes back through the parser in place |
| QueryArgs.SearchIsScan | src/HTTPUnit.cpp:194-205 | the first match in backtracking order is the first '=', with the key back to the nearest '?' and the value up to '&', CR, LF or the end; no match means no '=' |
| QueryArgs.FoundIsUnique | src/HTTPUnit.cpp:194-205 | that description fixes the match |
| QueryArgs.ParseArgs | src/HTTPUnit.cpp:194-205 | the loop ends, with the last-wins map of all matches in order |
| QueryArgs.LastWinsIsLast | src/HTTPUnit.cpp:201 | the map has exactly the keys of the matches, each with its last value |
| QueryArgs.ArgsRoundTrip | src/HTTPUnit.cpp:194-205 | arguments written behind a path without '=' are read back, if and only if keys have no '=' and '?' and values no '&', CR and LF |
| SocketTable.StepKeepsInv | src/EPoll.cpp:82-143 | every step of every loop, and every descriptor opened or closed elsewhere, keeps the invariant of table, descriptors and registrations |
| SocketTable.NeverThrows | src/EPoll.cpp:120-143 | "socket already exist" and "deleting non-existing socket" are unreachable: where addSocket looks, the entry is zero or beyond the vector, and where delSocket looks there is one; and one loop at a time is inside the mutex |
| SocketTable.TableIsTrue | src/EPoll.cpp:82-143 | an Open entry is an open client registered with exactly one epoll, and a client that no loop is adding or closing is in the table |
| SocketTable.NumberComesBackInsideLock | src/EPoll.cpp:95-97 | whenever a loop closes a number, another that is about to accept can be given it before the mutex is released, and the invariant still holds |
| SocketTable.SomeRunComesBackInsideLock | src/EPoll.cpp:82-97 | such a run from the start: a connection is served, hangs up and is closed, and its number is accepted again inside the lock |
| SocketEvents.EventsInOrder | src/EPoll.cpp:79-81 | the events that epoll_wait has reported to a loop are those it has turned to, in order, and those still to handle |
| SocketEvents.StepKeepsServed | src/EPoll.cpp:82-143 | no step of any loop ends the service of a connection but delSocket of its own loop for it |
| SocketEvents.ClosedOnlyByHangUp | src/EPoll.cpp:94-97 | over any run, a client is closed only by a loop that has taken a hang-up event of it and has been on its way to close it since |
| SocketEvents.HangUpIsClosed | src/EPoll.cpp:94-97 | a loop that has taken a hang-up event has closed that connection by the time it is idle again |
| SocketEvents.AcceptedIsServed | src/EPoll.cpp:82-92 | a loop that accept has given a descriptor other than 0 has it in the table, and registered with its epoll, by the time it is idle again |
| SocketEvents.NothingElse | src/EPoll.cpp:82-113 | an event without hang-up closes nothing and changes no table, nor does accept with nobody waiting; a failed accept ends the loop |
| SocketEvents.NoDeadlock | src/EPoll.cpp:89-97 | in every reachable state a loop with a descriptor in hand can go on, or the loop that has the mutex can |
| SocketTable.EPoll.AddSocket | src/EPoll.cpp:120-133 | the vector grows with zeros as far as needed, the descriptor is registered and its entry Open, or an existing entry is reported and nothing changes |
| SocketTable.EPoll.DelSocket | src/EPoll.cpp:135-143 | the entry is Closed and the descriptor closed, with its registrations, or an index out of range is reported |
| SocketTable.AddIsThreeSteps | src/EPoll.cpp:120-133 | in every reachable state the machine's three steps, uninterrupted, are addSocket, and succeed |
| SocketTable.DelIsTwoSteps | src/EPoll.cpp:135-143 | in every reachable state the machine's two steps, uninterrupted, are delSocket, and succeed |

## Left out

- `yield_value` of both Task forms: nothing uses `co_yield`, and it wakes the awaiters before it stores the value.
- RuntimeSafety.ResultBeforeResume: says what the first await_resume of a task finds; later ones find a moved-from value.
- Exceptions other than SocketException, which leave a coroutine through `rethrow_exception`.
- RuntimeShutdown.AllExit: is about schedulers whose workers' last `handle.resume()` has returned; coroutines whose handles are dropped at shutdown are not destroyed, as in the code.
- RuntimeCoroutine.EveryActionCounts: counts a coroutine's own actions; how long it waits for a mutex or a queue is up to the threads that have them.
- `thread_start` as a method: the worker's loop, which blocks in `pull`, is in the step machine only; so is the wait in `pull` before its critical section.
- The event loop of `EPoll::wait` as a method: its branches are steps of SocketTable; only addSocket and delSocket are also methods.
- HttpParser.DispatchHeader: when it fails, only the error and that nothing but separators was overwritten are stated, not which entries had been made; the caller drops them.
- The weak memory of the `volatile bool` flags and what may be called in a signal handler: steps are sequentially consistent.
- CString.IncrementParse: does not model the width of `int`; texts of 2^31 characters and more are outside.
- Integer width in the queue (`size_t`): sizes are unbounded.
- `handleMethod` with its multipart regular expressions, `parseSemiColSeperated`, `parseFormDataInfo` and the choice of a handler for a path.
- HttpSyntax.ResponseRoundTrip: headers are a sequence in the iteration order of the map; the ordering of std::map itself is not part of this model.
- The header map's tree: HttpParser keeps its entries in order of insertion.
- Reading and writing of sockets, files and logs, `stat`, MIME types, default handlers, `lockSocket` and `unlockSocket`.
- The stop pipe: its event arrives when `running_` is false already, and the loop ends without looking at its events; in SocketTable a loop may end at any wait.
- Handlers that write to a descriptor that has been closed and given out again meanwhile, and the lifetime of the objects that `logRequest` is given: the code does not guard them, and nothing is claimed.
- static/tcerver.hpp, an older single-header copy of the same code.
