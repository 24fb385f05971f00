# Verified model of the polyglot code-execution platform

Students' programs run in pooled sandbox pods. A gateway takes a request and queues it; a worker
leases a pod, sends it the code, and relays output and input; the engine in the pod compiles the
code, runs it as a child process and streams its pipes over a WebSocket; the gateway bills the
tenant. This project models that path, from the child's file descriptors to the tenant's balance,
and proves what it promises on every input and under every interleaving.

`dafny verify dfyconfig.toml` checks everything.

## How it is organised

| module | models |
|---|---|
| TaskProtocol | the calls one worker task may make on pods and leases, and in what order |
| Worker, StatusPayload | the worker's handlers, with every exception path, as methods that log their calls |
| Runs | runs of a transition system, for all the modules below that interleave |
| LeaseProtocol | any number of such tasks over one cluster, one lease store and one clock |
| TaskQueue | the shared queue and each worker's semaphore |
| Relay, RelayFlow, BatchChannel | one interactive and one batch task: gateway, lossy Redis channels, worker, relay coroutines, client; how a session goes on and ends |
| Posix, ProcessPipe, ProcessLife | the operating system as the engine sees it, the `ProcessPipe` class, and every sequence of calls on it |
| EngineHandler, EngineSession, Dialogue | the `/ws/execute` handler before its two threads start, the threads, and how output, input and verdict get through while they run |
| EndToEnd | engine and relay put together |
| Base64, CompileCache, TimedWait | the engine's encoder, compile cache and polling wait |
| Billing, Gateway, Charging | the deduction, the gateway's three routes to it, and who is charged for what |

What the C++ and Python do by changing things step by step is a class or a method here, proved
against a pure specification. Where several of them run at once, each access to shared state is
one step of a transition system whose states are built from those specifications. Module Runs
says what a run of such a system is; `Reachable` (`EngineSession.Runs`) says which states n steps
can lead to, and invariants are proved over all of them.

- The worker's methods log every call on the cluster and the lease store with an arbitrary
  answer. Their contracts show that the log keeps the discipline `TaskProtocol.MayCall`, and
  `LeaseProtocol.LogsAreAdmitted` that the interleaving covers every such log: whatever the other
  tasks do, a run can go on along it. The discipline admits more than the code does, so what is
  proved of the interleaving holds all the more.
- The methods of `ProcessPipe.Pipe` are proved equal to functions on a record of the fields and
  the operating system. ProcessLife and EngineSession step through those functions.
- What the surroundings grant -- pipes, a fork, a write at some moment, a database call, a client
  that takes so many messages -- is laid down in their objects from the start and otherwise
  arbitrary, so that a contract can say what the code does with it.

## Premises

They are explicit in the statements; where one is needed, a lemma shows what happens without it.

- Leases: a leased pod's deletion is requested within the lease's 60 s and takes effect
  (`LateDeletionBreaks`, `LostDeletionBreaks`). The first does not follow from the code: a session
  has 120 s, and even they do not bound it (`TimeoutDoesNotEndSession`). Pod names are never
  reused, and a listing names a pod once.
- No leaks: deletions take effect and the lease store answers. Only the code modelled here
  deletes pods.
- Output: no descendant of the child outlives it with the pipes open (`OrphansWriteLate`).
- Channels: a subscription is effective when `subscribe` returns; publishing and the task queue
  are reliable. A WebSocket delivers in order what it delivers.
- Each `ProcessPipe` method is atomic, and a successful write to a pipe takes all the data.
- `waitpid` on the engine's own child does not fail. Sleeps last at least as long as asked.
- Compile cache: a build is a fixed function of language, source and the other files in /tmp,
  sources of other languages included. It reads no installed binary and leaves nothing behind
  that a later build reads. No payload file is named like an installed binary, a cache entry or
  a scratch file of the engine (`in.txt`, `out.txt`, `err.txt`, `compile_err.txt`).
- Billing: sessions on one tenant are serial; amounts are real numbers; task ids do not repeat.

## Where code and documentation part

The model follows the code.

- With DEBUG_MODE a failed pod is kept and its lease released at once, so another task can lease
  and use it (`DebugModeBreaks`). The worker's second clean-up then deletes the pod that was to
  be kept (`NoLeaks` holds with DEBUG_MODE on).
- A dynamic pod is left to nobody when its creation raises after it has taken effect, and when
  an exception other than ApiException ends the wait for it: the worker never learns its name
  (`LostAnswerLeaks`, `UnexpectedErrorLeaks`). These are the only leaks (`LeaksAreTheTwoExits`).
- The compile cache names a binary after hash and length of the source, not after the language
  and not after the other files of the payload; one source sent under two compiled languages, or
  again with other files, gets the first one's binary (`TwoStrategiesCollide`,
  `TwoFileSetsCollide`). On a hit the source is not written, so the source file of an earlier
  request stays where a later build can read it (`HitLeavesOldSource`).
- A compile-only build sends `completed` before its output, and the relay stops at `completed`:
  the client never gets the output (`CompileOnlyOutputLost`).
- The engine closes the child's stdin after the first message with `stdin_data`, so an
  interactive program reads one line, whatever the user types later (`FirstLineIsAllTheInput`).
  All of the input arrives exactly if none follows a close (`TypedInputArrives`). The `stdin_data`
  that the relay puts into its first message is not looked at.
- A JSON number, boolean or null from the client raises an exception that ends the gateway's
  stdin loop without a word (`NothingForwardedAfterStop`).
- Batch and local runs are charged on failure too, although the comment says successful execution;
  an interactive client is charged for a `completed` it could not be sent (`ServeBatch`,
  `ServeLocally`, `ServeInteractive`).
- `spawn` documents that it reports whether exec succeeded; it reports whether fork did.
- A run killed by the timed wait is reported as having exceeded its memory limit (`TimedWait.Execute`).

## Model

| member | source | states |
|---|---|---|
| LeaseProtocol.SingleUseTheorem | src/environment-orchestrator/src/adapters/k8s_provisioner_adapter.py:57-76 | Over every interleaving of any number of tasks, pods, clock ticks, stale listings and lease expiries, no pod ever runs the code of two tasks, if and only if leased pods are deleted within the 60 s of a lease, deletions take effect and DEBUG_MODE is off |
| LeaseProtocol.SafeDeploymentsAreSingleUse | src/environment-orchestrator/src/worker.py:99-163 | The safe half, for any deletion budget up to the lease time: whatever the lease store answers or loses, at most one task executes on a pod in its whole life |
| LeaseProtocol.ReachableInv | src/environment-orchestrator/src/adapters/redis_lock_adapter.py:10-22 | While a leased pod lives, the lease in the store is the one its task took, although releases carry no owner and happen twice; every reachable state keeps it |
| LeaseProtocol.StepPreservesInv | src/environment-orchestrator/src/adapters/k8s_provisioner_adapter.py:164-190 | Each single call -- listing, lease, address, run, delete, release -- keeps that invariant |
| LeaseProtocol.LateDeletionBreaks | src/environment-orchestrator/src/adapters/k8s_provisioner_adapter.py:74-76 | A run, step by step, in which two tasks execute on one pod because the first still holds it when its lease expires |
| LeaseProtocol.LostDeletionBreaks | src/environment-orchestrator/src/adapters/k8s_provisioner_adapter.py:182-190 | A run in which two tasks execute on one pod because a swallowed deletion error left it alive |
| LeaseProtocol.DebugModeBreaks | src/environment-orchestrator/src/services/execution_service.py:56-61 | A run in which two tasks execute on one pod because DEBUG_MODE keeps the failed pod and releases its lease |
| LeaseProtocol.NoLeaks | src/environment-orchestrator/src/worker.py:155-163 | When deletions and the store work: the pod of a finished task is alive if and only if the task abandoned it, and once all tasks are finished no lease key is left, expired or not -- with DEBUG_MODE as without |
| LeaseProtocol.LeaksAreTheTwoExits | src/environment-orchestrator/src/adapters/k8s_provisioner_adapter.py:137-162 | Over every run, a finished task leaves its pod alive if and only if among its calls is a creation that took effect without an answer, or an unexpected exception that ended the readiness loop |
| LeaseProtocol.LostAnswerLeaks | src/environment-orchestrator/src/adapters/k8s_provisioner_adapter.py:137-162 | A run in which a finished task leaves its pod alive because `create_namespaced_pod` raised after it had taken effect |
| LeaseProtocol.UnexpectedErrorLeaks | src/environment-orchestrator/src/adapters/k8s_provisioner_adapter.py:140-159 | A run in which a finished task leaves its pod alive because an exception other than ApiException ended the readiness loop |
| LeaseProtocol.LogsAreAdmitted | src/environment-orchestrator/src/worker.py:99-273 | After any run in which a task has made the first calls of a disciplined log, such as each log of the worker methods, and the others whatever they liked, its next call is not refused, with any answer that the cluster and the store can give, and the run goes on along the log |
| LeaseProtocol.TaskFollowsItsCalls | src/environment-orchestrator/src/worker.py:247-290 | After any run, whatever the other tasks did in between, a task is exactly where its own calls have taken it, and they have kept the discipline |
| TaskProtocol.CompletedIsEarned | src/environment-orchestrator/src/services/execution_service.py:44-46 | In every log of the worker methods, before a `completed` the pod that the task holds has been given the code and has answered |
| TaskProtocol.NoPodPassedOver | src/environment-orchestrator/src/adapters/k8s_provisioner_adapter.py:62-78 | A dynamic pod is made only when every ready pod of every listing has been asked for since it was listed, and refused |
| Worker.Provision | src/environment-orchestrator/src/adapters/k8s_provisioner_adapter.py:43-162 | Up to three scans, exactly three before a dynamic pod, then at most 25 readiness polls, exactly 25 before giving up: the caller gets a pod it holds and nobody has cleaned up, just leased, or an exception; and an exception only after an unexpected error of the listing or the polling, an error of the creation, or 25 polls, with nothing left behind but a pod that was abandoned |
| Worker.LeaseOneOf | src/environment-orchestrator/src/adapters/k8s_provisioner_adapter.py:62-74 | Of a listing every pod is asked for until one is granted; a failure means that all were refused |
| Worker.CreatePod | src/environment-orchestrator/src/adapters/k8s_provisioner_adapter.py:80-162 | The slow path, with what each of its five exits leaves behind |
| Worker.ExecuteCode | src/environment-orchestrator/src/services/execution_service.py:31-61 | The code is taken to the pod exactly once if the pod has an address, and otherwise ten tries were made; on every path the pod is deleted, or kept exactly in a failed run with DEBUG_MODE, and its lease is released afterwards |
| Worker.BatchBody | src/environment-orchestrator/src/worker.py:113-142 | It ends without an exception if and only if the pod was asked once and answered with a dictionary and every publish arrived; what kept it from asking is a missing key, a failed search or ten failed tries for an address; the statuses published in each case, and which pod the `finally` block will find |
| Worker.HandleBatchTask | src/environment-orchestrator/src/worker.py:99-163 | With publishing reliable: exactly one `completed` or `error`, last, and `completed` if and only if the pod has answered -- unless resolving the catalog raised something else, and then nothing; either way the pod is given back, or was abandoned while it was provisioned |
| Worker.InteractiveBody | src/environment-orchestrator/src/worker.py:173-212 | The relay is started once if and only if the pod has an address, and the body ends normally exactly as the relay does; however that is, the `finally` block finds a pod name exactly when the task holds a pod that it has neither given back nor abandoned; and what has been published by then |
| Worker.HandleInteractiveTask | src/environment-orchestrator/src/worker.py:166-237 | On every path -- no IP, exception, relay failure -- the pod is given back, or was abandoned while it was provisioned; the handler itself publishes `provisioning` alone if and only if the relay came to its end, and an `error` otherwise |
| Worker.ProcessTask | src/environment-orchestrator/src/worker.py:247-273 | Every log of a task keeps the discipline to its end, with the pod given back or abandoned; a batch task with an id, whose publishes arrive, publishes exactly one terminal status, as its last message, `completed` if and only if its pod answered; an interactive one what its handler publishes; and without an id nothing is done |
| Worker.GiveBack | src/environment-orchestrator/src/worker.py:155-163 | The second clean-up and release, on a pod that may already be gone, publishes nothing and gives the pod back |
| Worker.AwaitIp | src/environment-orchestrator/src/services/execution_service.py:34-42 | At most ten tries, exactly ten before giving up; the answer tells whether an address was found |
| StatusPayload.PublishPayload | src/environment-orchestrator/src/worker.py:39-48 | The published object is the status and message with the extra entries laid over them in order |
| StatusPayload.StatusSurvives | src/environment-orchestrator/src/worker.py:41-47 | Whatever keys the engine's result has, the published `status` is the one given |
| StatusPayload.EntriesArrive | src/environment-orchestrator/src/worker.py:43-47 | Every entry of the result arrives, `status` as `engine_status` and any other under its own name, unless a later one of these two keys displaces the other |
| StatusPayload.NothingElseArrives | src/environment-orchestrator/src/worker.py:41-47 | And nothing else does: what stands under a name is an entry with that name, or the renamed `status`, or the base entry |
| StatusPayload.CollisionOnlyOnStatus | src/environment-orchestrator/src/worker.py:44-47 | The only two keys that can collide are `status` and `engine_status` |
| TaskQueue.Conservation | src/environment-orchestrator/src/worker.py:240-290 | At every reachable state, with any number of workers: pushed = queued + waiting + in a handler + finished, in one place each, first in first out, none handled twice, at most MAX_CONCURRENT_TASKS per worker in handlers |
| TaskQueue.ReachableInv | src/environment-orchestrator/src/worker.py:243-248 | The permits left and the handlers running add up to the semaphore's size at every reachable state |
| TaskQueue.NothingStuck | src/environment-orchestrator/src/worker.py:243-290 | As long as some task is not finished and there is a worker, a task can be popped, admitted or completed |
| Relay.NoStatusLost | src/api-gateway/src/presentation/execution_ws.py:95-167 | The client gets `queued`, then everything published for the task from the first update to the first terminal one, without a gap and nothing after it; it gets less only if it is gone -- whatever else the relay publishes after its own timeout |
| Relay.OneFinal | src/api-gateway/src/presentation/execution_ws.py:152-167 | A terminal update is the last thing the client receives |
| Relay.GatewayNeverHangs | src/environment-orchestrator/src/adapters/ws_relay_adapter.py:156-188 | A worker that is done with an interactive task has published a terminal update, whatever failed, and the gateway's loop is never left waiting |
| Relay.TimeoutDoesNotEndSession | src/environment-orchestrator/src/adapters/ws_relay_adapter.py:156-177 | After its 120 s the relay waits for the pod without limit: for any number of messages a run in which the worker, overdue, has forwarded that many and still holds pod and permit |
| BatchChannel.BatchDelivered | src/api-gateway/src/presentation/execution_ws.py:95-100 | Batch mode, over the channel subscribed before the push: a client that stays gets all that the worker published, ending with its one terminal status, and the gateway's loop is never left waiting |
| Relay.ClientSeesPodOutput | src/environment-orchestrator/src/adapters/ws_relay_adapter.py:112-128 | The pod's messages that reach the client are a prefix of what the pod sent, in order |
| Relay.StdinInOrder | src/environment-orchestrator/src/adapters/ws_relay_adapter.py:98-110 | The pod gets the client's messages once, in order and without a gap from a point that lies before the first message sent after `executing` was seen |
| Relay.StdinDelivered | src/environment-orchestrator/src/adapters/ws_relay_adapter.py:139-148 | In a session neither complete nor abandoned, once nothing is in transit, every message from that point on is on the pod's socket |
| Relay.NothingForwardedAfterStop | src/api-gateway/src/presentation/execution_ws.py:169-193 | Nothing the client sends after a JSON scalar (or a hang-up) is ever forwarded: the exception ends the gateway's loop silently |
| Relay.EachIsTranslated | src/api-gateway/src/presentation/execution_ws.py:169-193 | Before that, every JSON object with a stdin key is passed on as it is, text as a line of stdin, and a hang-up as a close |
| Relay.ReachableInv | src/api-gateway/src/presentation/execution_ws.py:95-193 | The joint invariant of gateway, channels, relay and worker holds at every reachable state |
| RelayFlow.SessionIsAnnounced | src/environment-orchestrator/src/adapters/ws_relay_adapter.py:98-133 | In every session `executing` is published before the pod's first message |
| RelayFlow.RelayStops | src/environment-orchestrator/src/adapters/ws_relay_adapter.py:112-128 | The relay forwards nothing after a terminal message of the pod and leaves its loop on it |
| RelayFlow.CompleteSessionEnds | src/environment-orchestrator/src/adapters/ws_relay_adapter.py:150-188 | A complete session needs neither the timeout nor the pod: four steps of the worker's own end it, and nothing else is published |
| RelayFlow.WorkerNeverStuck | src/environment-orchestrator/src/adapters/ws_relay_adapter.py:94-188 | Until it is finished the worker or its output task can move, or both wait for a pod that is connected and silent |
| RelayFlow.StdinNeverStuck | src/environment-orchestrator/src/adapters/ws_relay_adapter.py:139-148 | In a live session, unless everything typed has arrived, the gateway's loop or the relay's stdin task can move |
| EndToEnd.OutputEndToEnd | src/cpp-processing-engine/src/main.cpp:213-280 | A client that sees `completed` or `timeout` has received the engine's whole trace, and in it exactly the bytes the child wrote to stdout and stderr, in order; the verdict it saw is the true one |
| EndToEnd.OutputArrives | src/environment-orchestrator/src/adapters/ws_relay_adapter.py:112-188 | A client that stayed until the gateway closed has the whole trace, verdict included, if and only if it was not sent the `error` of a relay or a worker; and then all the bytes the child wrote |
| EndToEnd.OutputNeverWrong | src/cpp-processing-engine/src/main.cpp:213-280 | At every moment the output the client has is a prefix of what the child wrote |
| EndToEnd.CompileOnlyOutputLost | src/cpp-processing-engine/src/main.cpp:172-189 | For a compile-only build the client that sees `completed` has received none of the output; it is complete if and only if there was none |
| EndToEnd.FirstLineIsAllTheInput | src/cpp-processing-engine/src/main.cpp:284-310 | A client that waits for `executing` and then types: the program's stdin is the first line typed and nothing more, whatever follows |
| EndToEnd.TypedInputArrives | src/cpp-processing-engine/src/main.cpp:284-310 | Once everything has come through: the program has read all the typed data, in order, if and only if none of it follows a close of stdin |
| EndToEnd.HangUpEndsInput | src/api-gateway/src/presentation/execution_ws.py:185-190 | Once everything has come through, the program of a client that has hung up has its stdin closed |
| EngineSession.TraceGrammar | src/cpp-processing-engine/src/main.cpp:157-322 | Under every interleaving of the two threads: `compiling`, `running`, output only, then at most one `completed` or `timeout` and nothing after it; only a client that is gone can suppress it |
| EngineSession.VerdictIsTrue | src/cpp-processing-engine/src/main.cpp:258-277 | `completed` carries the exit code and memory flag of a child that ended by itself, never of one the ingress loop killed; `timeout` always carries 999 |
| EngineSession.OutputIsWhatWasWritten | src/cpp-processing-engine/src/main.cpp:215-256 | The output messages carry a prefix of each stream, and with the verdict all of it, if no descendant of the child holds the pipe |
| EngineSession.RunIsALife | src/cpp-processing-engine/src/main.cpp:213-322 | Every run of the handler is a sequence of `ProcessPipe` calls, so the theorems of ProcessLife hold in it |
| EngineSession.HandlerReclaims | src/cpp-processing-engine/src/main.cpp:319-323 | When the handler is done, every descriptor has been closed once and the child reaped once |
| EngineSession.InputIsWhatWasSent | src/cpp-processing-engine/src/main.cpp:284-310 | The child's stdin is what the messages' operations wrote before the first close, in the order of the messages |
| EngineSession.FirstInputIsAll | src/cpp-processing-engine/src/main.cpp:293-299 | If the first message has `stdin_data`, that is all the child can ever read |
| EngineSession.AllInputArrives | src/cpp-processing-engine/src/main.cpp:284-310 | At every reachable state: the child has been given all data that the pipe would take if and only if none of it was fed after a close |
| EngineSession.MessagesArriveWhole | src/cpp-processing-engine/src/main.cpp:284-310 | For a settled ingress loop whose writes were taken: stdin is the data of all messages received, in order, if and only if no data follows a close in their operations |
| EngineSession.RunsSInv | src/cpp-processing-engine/src/main.cpp:203-323 | The joint invariant of both threads, process and socket holds at every reachable state |
| Dialogue.OutputIsStreamed | src/cpp-processing-engine/src/main.cpp:214-238 | What the child had written when a poll found it running has been sent, stream by stream, when the thread is back at the head of its loop, whatever the others do meanwhile |
| Dialogue.RoundEnds | src/cpp-processing-engine/src/main.cpp:214-238 | And it gets back there, by four steps of its own |
| Dialogue.SilentBeforeTimeout | src/cpp-processing-engine/src/ProcessPipe.hpp:249-255 | A child found running by the last poll before it is timed out has written nothing from any moment of the last 15000 ms up to that poll, and all it wrote before has been sent |
| Dialogue.VerdictComes | src/cpp-processing-engine/src/main.cpp:214-280 | From the head of the loop, with a child that has ended by itself, the thread's own steps lead to `completed` with its exit code and memory flag; with one idle for more than 15000 ms, to `timeout` with 999 |
| Dialogue.SomeRunCompletes | src/cpp-processing-engine/src/main.cpp:246-280 | The verdict is reachable: some run ends with `completed` |
| Dialogue.HangUpKills | src/cpp-processing-engine/src/main.cpp:310-323 | When the ingress loop has left because the client is gone, the child is dead and reaped |
| Dialogue.HandlerNeverHangs | src/cpp-processing-engine/src/main.cpp:203-323 | Until the handler is done one of its threads can move, or its read fails at once because the engine has closed the socket; an egress thread that finishes with the client there has given the verdict and closed the socket |
| Dialogue.RawLinesArrive | src/cpp-processing-engine/src/main.cpp:305-309 | Of a client that sends text that is not JSON, or fields of the wrong type, the program reads every message as a line, in order |
| Dialogue.InputEndsOnRequest | src/cpp-processing-engine/src/main.cpp:293-304 | The program sees the end of its input if and only if a message had `stdin_data` or `close_stdin` true |
| Dialogue.AnyMessagesTaken | src/cpp-processing-engine/src/main.cpp:284-310 | For any messages there is a run in which the loop has received and performed exactly these |
| EngineHandler.Prepare | src/cpp-processing-engine/src/main.cpp:139-202 | What the client is sent in each case before the threads start -- with the errors of the build, and the code and output of a compile-only one -- and when the socket is closed |
| EngineHandler.EngineEndsWithVerdict | src/cpp-processing-engine/src/main.cpp:135-335 | Over every run of every branch, threads included: a terminal message is the last one sent, except in a compile-only build with output |
| ProcessLife.DescriptorsClosedOnce | src/cpp-processing-engine/src/ProcessPipe.hpp:36-40 | Over any sequence of calls, with any of the pipes or the fork failing: no descriptor is closed twice, none that was not created, and after the destructor each one has been closed |
| ProcessLife.ChildReapedOnce | src/cpp-processing-engine/src/ProcessPipe.hpp:208-274 | The child is reaped at most once, exactly once by the end of the destructor, signalled at most once, and never after it was reaped |
| ProcessLife.ExitCodeFrozen | src/cpp-processing-engine/src/ProcessPipe.hpp:208-274 | Once `exited_` is set, exit code, memory flag and the child's state never change again, over every continuation |
| ProcessLife.ExitCodeMeans | src/cpp-processing-engine/src/ProcessPipe.hpp:215-243 | The exit code is the wait status if and only if the session did not kill the child, and 999 if it did; the memory flag means a SIGKILL from elsewhere |
| ProcessLife.TimesOutWhenIdle | src/cpp-processing-engine/src/InteractiveSession.hpp:173-186 | `is_running` times the session out exactly when spawn, non-empty reads and accepted writes are all more than 15000 ms back |
| ProcessLife.IdleTimeoutSound | src/cpp-processing-engine/src/ProcessPipe.hpp:249-255 | When `timed_out` is set, over every run, the call that set it had found more than 15000 ms since spawn and since all input and output before it |
| ProcessLife.NothingLostInPipe | src/cpp-processing-engine/src/ProcessPipe.hpp:302-332 | At every reachable state: bytes read ++ bytes still in the pipe = bytes written |
| ProcessLife.NotRunningMeansReaped | src/cpp-processing-engine/src/InteractiveSession.hpp:173-186 | After the spawn, `is_running` answers false if and only if the child has been reaped when it answers |
| ProcessLife.DrainAfterExit | src/cpp-processing-engine/src/ProcessPipe.hpp:302-332 | After `is_running` is false and no descendant holds the pipe, one read, at once or later, returns the last byte there will ever be, over every continuation |
| ProcessLife.OrphansWriteLate | src/cpp-processing-engine/src/ProcessPipe.hpp:302-332 | The premise is needed: with a surviving descendant more output can follow |
| ProcessLife.InputEndsAtClose | src/cpp-processing-engine/src/ProcessPipe.hpp:177-184 | After `close_stdin` the child's input never grows again |
| ProcessLife.RunKeepsInv | src/cpp-processing-engine/src/ProcessPipe.hpp:277-289 | The joint invariant of fields, descriptors, child, clock and streams is kept by every sequence of calls |
| ProcessPipe.Pipe.Spawn | src/cpp-processing-engine/src/ProcessPipe.hpp:53-152 | True exactly if the system grants three pipes and the fork; with 0 to 3 pipes created and the fork succeeding or not, the whole resulting object |
| ProcessPipe.Pipe.CreatePipes | src/cpp-processing-engine/src/ProcessPipe.hpp:57-61 | The pipes that were created before one failed stay in the object |
| ProcessPipe.Pipe.CloseChildEnds | src/cpp-processing-engine/src/ProcessPipe.hpp:133-141 | The parent gives up the child's three ends and no other |
| ProcessPipe.Pipe.WriteStdin | src/cpp-processing-engine/src/ProcessPipe.hpp:158-171 | Refused before the spawn and after the close; otherwise it counts as activity whether or not the write succeeds, and reaches the child if it does |
| ProcessPipe.Pipe.CloseStdin | src/cpp-processing-engine/src/ProcessPipe.hpp:177-184 | Closes the write end once |
| ProcessPipe.Pipe.ReadFd | src/cpp-processing-engine/src/ProcessPipe.hpp:302-332 | Returns nothing from a closed end, and otherwise all the pipe held; only data counts as activity |
| ProcessPipe.Pipe.ReadChunks | src/cpp-processing-engine/src/ProcessPipe.hpp:310-331 | The read loop, with chunks of any size up to 4096, terminates and returns the whole content of the pipe in order |
| ProcessPipe.Pipe.HasExited | src/cpp-processing-engine/src/ProcessPipe.hpp:208-243 | The answer, and what it records of the wait status |
| ProcessPipe.Pipe.Terminate | src/cpp-processing-engine/src/ProcessPipe.hpp:264-274 | Kills and reaps a child that was not reaped yet, and does nothing otherwise |
| ProcessPipe.Pipe.CloseAllFds | src/cpp-processing-engine/src/ProcessPipe.hpp:334-350 | All six ends, each closed only if open |
| ProcessPipe.Pipe.Destroy | src/cpp-processing-engine/src/ProcessPipe.hpp:36-40 | Terminate, then close all |
| ProcessPipe.Session.IsRunning | src/cpp-processing-engine/src/InteractiveSession.hpp:173-186 | Enforces the idle timeout before it polls; both outcomes and the new state |
| Base64.Encode | src/cpp-processing-engine/src/BaseStrategy.hpp:16-31 | The streaming encoder with its wrapping 32-bit accumulator returns the encoding of section 4 of RFC 4648, for every byte string |
| Base64.DecodeInvertsEncode | src/cpp-processing-engine/src/BaseStrategy.hpp:16-31 | An independent decoder gets every byte string back |
| Base64.EncodeInvertsDecode | src/cpp-processing-engine/src/BaseStrategy.hpp:16-31 | And every text that decodes is the encoding of what it decodes to |
| Base64.LengthAndPadding | src/cpp-processing-engine/src/BaseStrategy.hpp:28-29 | Length 4*ceil(n/3); padding exactly at the right end |
| Base64.KnownTexts | src/cpp-processing-engine/src/BaseStrategy.hpp:16-31 | Three test vectors of section 10 of RFC 4648, and one for the last two symbols |
| Base64.AccumulatorOverflows | src/cpp-processing-engine/src/BaseStrategy.hpp:19-22 | The accumulator does overflow: four bytes FF make it -1 |
| Base64.PushKeepsLowBits | src/cpp-processing-engine/src/BaseStrategy.hpp:21 | The overflow is harmless: the 16 low bits come out as without it |
| Base64.OuterStep | src/cpp-processing-engine/src/BaseStrategy.hpp:20-27 | One byte through both loops emits exactly the sextets that the bytes so far determine |
| CompileCache.Engine.WriteFiles | src/cpp-processing-engine/src/main.cpp:57-66 | The payload's files are laid over those already in /tmp, in whatever order they are written |
| CompileCache.Engine.CompileSource | src/cpp-processing-engine/src/BaseStrategy.hpp:53-129 | Without a hit the source is written and the answer is the compiler's: success exactly if it built a binary, which is installed then; its errors if it rejected the source; its output and the notice if it was killed. A hit installs the entry. Reply, binary and cache after every kind of build |
| CompileCache.ReplyIsOutcome | src/cpp-processing-engine/src/BaseStrategy.hpp:78-129 | After any run, a request that is built is answered as its compiler ended, and with failure whenever that built nothing |
| CompileCache.SuccessIsInstalled | src/cpp-processing-engine/src/BaseStrategy.hpp:62-129 | After any run, a request answered with success has its binary installed, and the compiler built it from this request or from an earlier one with the same hash and length |
| CompileCache.Engine.Serve | src/cpp-processing-engine/src/main.cpp:89-95 | Files first, then the build: the whole new /tmp and the reply |
| CompileCache.CacheTheorem | src/cpp-processing-engine/src/BaseStrategy.hpp:60-72 | For any sequence of requests: the cached engine cannot be told from one without a cache, whatever the compiler, if and only if all cacheable requests that share hash and length build from the same language, source and files, and no build, whichever of them fail, meets a source file that a hit has left unwritten |
| CompileCache.OneStrategyIsTransparent | src/cpp-processing-engine/src/BaseStrategy.hpp:62-72 | One strategy, (hash, length) injective on its sources, and the same files in /tmp whenever a source comes again: same success, same errors, same installed binary, after every request |
| CompileCache.NoFilesIsTransparent | src/cpp-processing-engine/src/BaseStrategy.hpp:62-72 | Without payload files and sources of interpreted languages, one strategy and injective keys are enough |
| CompileCache.EntriesAreBuilds | src/cpp-processing-engine/src/BaseStrategy.hpp:112-126 | Failed builds never enter the cache: every entry is the output of a successful earlier build |
| CompileCache.EntriesStay | src/cpp-processing-engine/src/BaseStrategy.hpp:123-126 | An entry, once made, keeps its content |
| CompileCache.TwoStrategiesCollide | src/cpp-processing-engine/src/BaseStrategy.hpp:63-64 | One source compiled under two languages always gets the wrong binary for some compiler: the key ignores the language |
| CompileCache.TwoFileSetsCollide | src/cpp-processing-engine/src/BaseStrategy.hpp:63-64 | One source compiled twice with other files gets the wrong binary for some compiler exactly if the second set changes anything in /tmp besides the source: the key ignores the files |
| CompileCache.HitLeavesOldSource | src/cpp-processing-engine/src/BaseStrategy.hpp:66-76 | A hit does not write the source: after sources a, b and a again in one language, a build in another language that reads the first one's source file finds b, and for some compiler builds the wrong thing |
| TimedWait.SmartWaitpid | src/cpp-processing-engine/src/IExecutionStrategy.hpp:23-54 | At most timeout/10 + 2 polls; the child is killed at a moment more than the timeout after the start, and only unreaped; returns with it reaped exactly once |
| TimedWait.Execute | src/cpp-processing-engine/src/BaseStrategy.hpp:131-227 | The result is the reaped child's own exit code or 128 + signal; a fork failure gives -1 and touches nothing; a run killed for its time after more than the limit is reported as one that exceeded its memory |
| TimedWait.Run | src/cpp-processing-engine/src/SandboxOrchestrator.hpp:87-104 | A failed build runs nothing and is never taken for a failed run; a successful one is run, with the child's own exit code or 128 + signal, and killed only after more than 5000 ms; the memory flag means that the child was ended by SIGKILL, from the kernel or from the timed wait alike |
| Billing.Database.DeductCredits | src/api-gateway/src/presentation/execution_ws.py:243-280 | Every call is recorded; one that does not raise settles the bill: a known student's tenant loses milliseconds / 1000 * price (the pod's, or 1.0), at least 0.01 and at most what it has, and one row with the tenant, student, task, pod, credits and time of the call is appended; all else stays |
| Billing.DeductSettles | src/api-gateway/src/presentation/execution_ws.py:249-275 | The same of the specification that the closed form and the order theorem are about |
| Billing.ClosedForm | src/api-gateway/src/presentation/execution_ws.py:261-275 | After any deductions, each tenant's balance is max(0, initial - its ledger rows), or untouched without rows |
| Billing.OrderIrrelevant | src/api-gateway/src/presentation/execution_ws.py:261-263 | The same bills in another order leave the same balances |
| Billing.NeverNegative | src/api-gateway/src/presentation/execution_ws.py:263 | A balance is non-negative if and only if it started so or was charged at least once |
| Billing.LedgerIsDue | src/api-gateway/src/presentation/execution_ws.py:251-273 | The ledger's new rows add up to what the bills cost by the tables as they were before |
| Gateway.ServeBatch | src/api-gateway/src/presentation/execution_ws.py:220-232 | The client gets the updates up to the first `completed` or `error`, and its tenant is sent one bill, for the time in that update, if and only if the client was sent it |
| Gateway.ServeInteractive | src/api-gateway/src/presentation/execution_ws.py:150-213 | The client gets the updates up to the first terminal one, and its tenant one bill, for the time in the last one read, if and only if that is a `completed`, sent or not |
| Gateway.ServeLocally | src/api-gateway/src/presentation/execution_ws.py:110-138 | One bill if and only if the result could be sent, also after a failed run, then for no time |
| Gateway.Serve | src/api-gateway/src/presentation/execution_ws.py:99-232 | On every route: `queued`, what the client gets then, and exactly when one bill is sent and for what time; at most one ledger row, with this task's id |
| Gateway.OneRowPerTask | src/api-gateway/src/presentation/execution_ws.py:21-28 | Over any number of requests with task ids of their own, no task has two ledger rows |
| Charging.LoopsAgree | src/api-gateway/src/presentation/execution_ws.py:152-232 | The forwarding loops as methods and as steps of the channel read equally far and hand the client equally much |
| Charging.BatchLoopEnds | src/api-gateway/src/presentation/execution_ws.py:220-232 | Over what the channel carries of a batch task, the loop ends after the last update published and not before |
| Charging.ChargedMeansCompleted | src/api-gateway/src/presentation/execution_ws.py:211-213 | An interactive client is charged only for a program that ended by itself: the update it is charged for is the engine's true `completed`, sent to it or not |
| Charging.HandlersAgree | src/environment-orchestrator/src/worker.py:166-228 | The worker as steps publishes for itself exactly what the worker as a method is proved to publish |

## Left out

- Kubernetes, Redis, WebSocket, HTTP and database libraries: only their abstract effects are modelled.
- GUI pods and their server: pods are reused on purpose and their cleanup does nothing.
- The orchestrator's own HTTP endpoints, the local provisioner, dev tunnels, port probing, retry back-off, postmortem extraction, printing and metrics.
- An HTTP retry that runs the same task's code again on its own pod: the task counts as having executed there either way.
- A worker process that dies in the middle of a task.
- JSON and UTF-8 encoding of output, including a dump that throws in the egress thread: chunks are byte sequences carried unchanged.
- The contents of a compiler's and a program's files: the compiler is a function, the program an arbitrary writer that exits.
- Security limits, seccomp, tokens and passwords, enrolment checks, the choice of lightweight payloads, language and environment tables: foreign calls or finite lookups.
- Data races inside `ProcessPipe`, and concurrent database sessions on one tenant.
- ProcessPipe.Pipe.WriteStdin: a partial write is not modelled, because neither caller looks at how much was taken; it takes all the data or fails.
- ProcessPipe.Pipe.Spawn: exec, the sandbox limits and the environment hook run in the child and are part of what the child does.
- TimedWait.SmartWaitpid: does not model an error of `waitpid`, on which the code returns at once with nothing reaped.
- Worker.HandleInteractiveTask: says nothing about the statuses published inside `relay_session`; module Relay does.
- CompileCache.Engine.CompileSource: does not model exceptions of the file system library, nor files that a build leaves in /tmp besides its binary.
- Relay.StdinDelivered: speaks of a session whose pod is still connected; a message under way when the pod closes is lost with the relay's stdin task.
- Billing.Database.DeductCredits: uses real arithmetic where the code uses binary floating point.
- Front ends, stores, deployment files and scripts.
