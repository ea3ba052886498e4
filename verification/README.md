# The Kubernetes runner plugin, modelled and verified

The plugin runs the steps of a workflow job in a pod. A step is started
detached from the exec stream that started it; its output and exit code go into
a framed log in the pod, and the plugin copies that log over exec streams that
may break at any byte, resuming each time at the next byte it needs. This
project models that protocol and the code around it, and proves what it
promises. `dafny verify dfyconfig.toml` checks everything.

## What is modelled

The resumable step protocol is the main part.

- `StepIO` and `StepLog`: the frame format, the incremental `Decoder` as a
  class, a recursive one-shot parser that says what a log means, and the
  theorems that connect the two: any chunking gives the same result, a log
  parses back to its frames, every prefix of a log parses without corruption.
- `ExecStream`: the ordered, size-limited messages a step's output becomes.
- `Supervisor`: `frameLog` as a class whose methods are its critical sections,
  and the supervisor as a state machine: two pipe readers, the main goroutine,
  short writes, kills between and in the middle of writes, the `done` file.
- `Follow`: `follow` as a method whose every read of the disk may find another
  state of it, proved against a small-step specification; its bounded response.
- `Reattach` and `ReattachProofs`: `runStep` as a method over an adversarial
  exec stream, proved to leave a complete account of what it asked for, what it
  got and when; from the account follow exactly-once delivery, the honesty of
  the outcome and a bound on the number of attempts.
- `StepSystem`: all of it together. Any number of helpers race to start the
  step, the supervisor runs, followers copy, the stream delivers some prefix
  and breaks, the plugin decodes and reattaches. An invariant holds in every
  reachable state, and the protocol's promises are its consequences.

The life of an environment is the second part.

- `Environments`: Start, Exec and copies, Remove and Shutdown as threads that
  contend, step by step, for the registry and for one lock per environment.
- `Handlers`: the same handlers as methods of a class, written as the source
  writes them, with every other thread free to act between any two of their
  critical sections; they never leave the states of the machine.

The third part is smaller: `Argv` (the command lines of `run` and `follow`, and
the pipe to the supervisor), `EnvMerge` (layering of environments), `Readiness`
(waiting for a pod, with the image-pull timers), `Chunks` (archives out of an
environment) and `Upload` (files into it, both ends). `Bytes` holds 32-bit words.

What the environment chooses, such as how a write goes, when a stream breaks,
what a read of the disk finds or what the backend answers, is a parameter of
the model, and every theorem is for all choices.

## What the proofs show that the documentation does not say

- `runStep` documents that an error is the only outcome without an exit record
  (plugin/internal/server/server.go:394-396). It also returns `(-1, nil)`, when it was
  cancelled and the helper's exec ended normally: `ctx.Err() != nil` comes
  before `err == nil` and returns `err` (server.go:417-418). `NilErrorExactly` says
  exactly when a nil error means an exit record, `CancelledStepReturnsNil` gives the
  input, and `CompletedExecIsHonest` shows that the Exec handler, which looks
  for a cancellation first (server.go:377), still never reports a completed step wrongly.
- A follower can report a running step's supervisor as gone: until `run` has
  written the supervisor file (helper.go:201), which is after the log was created
  (helper.go:159), a second follower has nothing to check. `GoneExactly` and
  `RunningStepReportedGone` say exactly when, and `GoneWhileRunning` is a run of the
  whole system that gets there; `GoneMeansDead` shows that "gone" can be
  trusted of any follower begun once the file was in place.
- After the exit record fewer than five further bytes go unnoticed
  (stepio.go:85-88): `DecoderIsParser` has it as part of the exact status.
- An environment's lock is taken without looking again whether the environment
  is still registered (server.go:625-633). `NoLeakedJob` therefore needs the runner's
  discipline of one RPC at a time (proto/plugin/v1alpha/plugin.proto:27-30). Without it
  `LeaksExactly` gives the exact condition: a Job can come back exactly when at the
  delete the environment was not started and a Start, not cancelled, was waiting for
  its lock. `LeakWithoutDiscipline` is such a run.
- Shutdown is documented to delete every live environment (server.go:597-599). A Start
  that waits for the lock when the shutdown task has it boots the environment
  afterwards, even with the runner keeping to its discipline and with time left:
  `ShutdownMayLeak` is such a run, and the condition of `LeaksExactly` is exact here too.
- `CopyOut` sends no chunk at all for an empty archive, which the runner reports as
  such: `Download` has it as an if-and-only-if.

## Model

| member | source | states |
|---|---|---|
| Bytes.BigEndian | plugin/internal/stepio/stepio.go:24-25 | lengths and exit codes have their most significant byte first, and every four bytes are the encoding of what they decode to |
| ExecStream.SendAllMeaning | plugin/internal/server/server.go:351-363 | the messages of one write carry its bytes in order, each but the last of 64 KiB, none larger and none empty; all of them exactly when no send failed, else a prefix |
| ExecStream.Stream.Write | plugin/internal/server/server.go:352-363 | the send loop appends exactly the messages of the specification and stops at the first failed send |
| StepIO.CorruptionExactly | plugin/internal/stepio/stepio.go:85-97 | what the decoder objects to, on the bytes: a whole header that follows the exit record, has a length over 1 MiB, an unknown kind, or is an exit record not of four bytes |
| StepIO.WholeExactly | plugin/internal/stepio/stepio.go:89-102 | which bytes start with a whole frame, and which frame that is |
| StepIO.ParseResumes | plugin/internal/stepio/stepio.go:6-10 | parsing may stop after any byte, inside a header or a payload, and resume from what was left over, with the result of parsing everything at once |
| StepIO.Decoder.Write | plugin/internal/stepio/stepio.go:82-121 | the decoding loop over the fields refines the recursive specification: state, output and status |
| StepIO.Decoder.WriteTracked | plugin/internal/stepio/stepio.go:82-121 | a decoder that shows what the log read so far means shows, after a write, what the longer log means, or reports the corruption or the failed send |
| StepIO.Decoder.constructor | plugin/internal/stepio/stepio.go:71-78 | a new decoder has read nothing and sent nothing |
| StepIO.DrainDelivers | plugin/internal/stepio/stepio.go:85-116 | whatever the stream does: without a failure all frames went out in order; before a corruption all frames before it; at a failed send all frames before the failing one and not all of that one, which is dropped while what follows it stays pending, and no exit record is taken |
| StepIO.FeedTracks | plugin/internal/stepio/stepio.go:82-121 | one write keeps offset, pending bytes, exit code and output equal to what the parser says of all bytes written |
| StepIO.ChunkingIrrelevant | plugin/internal/stepio/stepio.go:69-70 | with infallible sinks any way of cutting the input into writes leaves the same decoder and the same final status as one write |
| StepIO.DecoderIsParser | plugin/internal/stepio/stepio.go:69-121 | a fresh decoder, fed in any chunks, has the output, undecoded rest, offset, exit code and corruption status of the one-shot parser |
| StepIO.ChunkingIrrelevantUntilError | plugin/internal/stepio/stepio.go:112-115 | with failing sinks and a transport that stops at the first error, the chunking changes neither output nor exit code nor status |
| StepIO.CorruptionSticks | plugin/internal/stepio/stepio.go:86-97 | corruption once reported is reported by every later write, which sends nothing |
| StepLog.FrameRoundTrip | plugin/internal/stepio/stepio.go:54-60 | a data frame parses back to itself exactly when its kind is known and its payload is at most MaxPayload |
| StepLog.ExitRoundTrip | plugin/internal/stepio/stepio.go:62-67 | an exit code comes back exactly when it is an int32, and as its int32 truncation otherwise |
| StepLog.EncodeAppend | plugin/internal/stepio/stepio.go:54-60 | appending a frame to an encoded log encodes the frames with that one appended |
| StepLog.ParsePrefix | plugin/internal/stepio/stepio.go:6-10 | every prefix of a log, cut at any byte, parses without corruption to a prefix of its frames; the exit code shows exactly when the log is whole |
| StepLog.FaultExactly | plugin/internal/stepio/stepio.go:85-97 | a log followed by a header of an oversized length, an unknown kind or a malformed exit record is reported corrupt right after its frames |
| StepLog.TrailingBytes | plugin/internal/stepio/stepio.go:85-88 | after a whole log five bytes or more are corruption and fewer are not; frames and exit code stay |
| Supervisor.FrameLog.Frame | plugin/internal/stephelper/helper.go:334-341 | appends one frame, wholly or torn by a failing write, unless the log is closed or already failed |
| Supervisor.FrameLog.Finish | plugin/internal/stephelper/helper.go:369-379 | appends the exit record unless a write failed, remembers the first error and closes the log |
| Supervisor.StepKeepsInv | plugin/internal/stephelper/helper.go:246-379 | under every interleaving of the readers, the end of the step, failing writes and kills: the log is whole frames and at most one torn final one, nothing follows an exit record, and each stream logged a prefix of what its pipe got, all that was read while the log is live |
| Supervisor.StepGrows | plugin/internal/stephelper/helper.go:246-264 | the log only grows, and not at all once it is closed or its writer is dead; a done file and an exit code never change |
| Supervisor.LogDecodes | plugin/internal/stephelper/helper.go:254-261 | every prefix of the log decodes without corruption to a prefix of the frames; an exit code decodes only from the whole log; an empty done file exists only for a log that ends in its exit record, and a done file of an opened log is empty exactly when no write or close failed |
| Supervisor.DoneExactly | plugin/internal/stephelper/helper.go:248-261 | over whole runs: the done file is empty only for a whole log, and not empty only if opening, a write or closing went wrong |
| Supervisor.AlwaysMarked | plugin/internal/stephelper/helper.go:249-261 | a supervisor that gets to its end leaves a done file, empty exactly for a log that is whole and closed without an error; one that cannot open the log leaves an error in it |
| Supervisor.OrdinaryStep | plugin/internal/stephelper/helper.go:246-265 | for any output in any order of pieces and any exit code there is a run whose log holds all of it and is marked complete |
| Supervisor.StreamIsSelect | plugin/internal/stephelper/helper.go:343-357 | what the frames say on stdout is what the stdout reader logged; likewise stderr when the helper itself said nothing |
| Supervisor.LoggedIsPrefix | plugin/internal/stephelper/helper.go:334-357 | what the log says of a stream is a prefix of what the step wrote to it |
| Supervisor.SettledFinishLosesNothing | plugin/internal/stephelper/helper.go:311-321 | if both readers had caught up when the log was finished, it holds all of the step's output |
| Follow.FollowLog | plugin/internal/stephelper/helper.go:384-444 | the nested loops of follow do, operation by operation, what the small-step specification does, on every sequence of states the disk may be found in |
| Follow.DrainLog | plugin/internal/stephelper/helper.go:400-415 | the inner loop copies to the end of the log as found, or stops at the first failed read or write |
| Follow.CheckSupervisor | plugin/internal/stephelper/helper.go:434-441 | the liveness check looks at done again before giving up, and then drains once more, ignoring that drain's error |
| Follow.FollowResponds | plugin/internal/stephelper/helper.go:416-443 | from any point, on a disk that no longer changes, follow writes the rest of the log and returns the code that the done file alone decides, within one liveness period of polls |
| Follow.FollowReturns | plugin/internal/stephelper/helper.go:384-444 | the same from the start, with explicit numbers of operations and polls; an offset past the end gives the no-log code |
| Follow.NoLogReturns | plugin/internal/stephelper/helper.go:385-389 | without a log follow returns 4 and writes nothing |
| Follow.FailureReturns | plugin/internal/stephelper/helper.go:417-438 | a failed read or write ends follow with 1, or with 3 in the last drain after a vanished supervisor |
| Follow.GoneExactly | plugin/internal/stephelper/helper.go:434-441 | on any disk that stays as it is follow says "gone" exactly when the offset is within the log, there is no done file and no live supervisor is on record |
| Follow.RunningStepReportedGone | plugin/internal/stephelper/helper.go:461-465 | on a disk that stays as it is, of a step whose supervisor runs, follow says "gone" exactly when there is neither a done file nor a supervisor file |
| Argv.NameListUnique | plugin/internal/stepio/stepio.go:197-212 | the sorted list of a map's valid names does not depend on the order the map is walked in |
| Argv.LessExactly | plugin/internal/stepio/stepio.go:206 | names are sorted by their first difference, a prefix coming first |
| Argv.ValidNameExactly | plugin/internal/stepio/stepio.go:214-216 | the names that are dropped are exactly those that as an assignment would be cut elsewhere or split on the way to the supervisor |
| Argv.EnvArgs | plugin/internal/stepio/stepio.go:197-212 | the loop lists exactly the valid names, sorted, each with its value |
| Argv.RunArgv | plugin/internal/stepio/stepio.go:144-152 | the command line of run is its fixed words, the assignments of the sorted valid names, the separator and the command |
| Argv.ParseRun | plugin/internal/stepio/stepio.go:154-178 | the parsing loop agrees with a recursive specification on every argument list, errors included |
| Argv.AssignmentsAreAssignments | plugin/internal/stepio/stepio.go:172-174 | what RunArgv lists, ParseRun accepts and splits into the same name and value, values with `=` included |
| Argv.RunRoundTrip | plugin/internal/stepio/stepio.go:144-178 | parsing the command line of run gives back what went in exactly when the directory is absolute and the command not empty, whatever words and values it contains |
| Argv.ParseExactly | plugin/internal/stepio/stepio.go:154-178 | what ParseRun accepts: exactly the arguments RunArgv builds from an absolute directory, assignments and a non-empty command |
| Argv.SpecReachesSupervisor | plugin/internal/stephelper/helper.go:92-192 | joining arguments with NUL and splitting again gives them back exactly when there are some and none contains a NUL |
| Argv.SupervisorGetsSpec | plugin/internal/stephelper/helper.go:75-97 | the spec the plugin put on the command line is the one the supervisor parses from its pipe exactly when no argument contains NUL |
| Argv.FollowRoundTrip | plugin/internal/stepio/stepio.go:180-195 | a resume offset reaches the helper exactly when it fits an int64 and the directory is absolute |
| EnvMerge.MergeEnv | plugin/internal/stephelper/helper.go:503-517 | one entry per name in order of first occurrence, each the last assignment of its name |
| EnvMerge.MergeIsOverride | plugin/internal/stephelper/helper.go:503-504 | the merged list names nothing twice and denotes the overrides layered over the base |
| EnvMerge.LastWins | plugin/internal/stephelper/helper.go:503-517 | an assignment is in the merged list exactly when it is the last of its name, the text before the first `=`, among all that were given |
| Reattach.WaitBounds | plugin/internal/server/server.go:433 | for a backoff in (0, 10 s] the shift does not overflow int64, and the wait is at least the backoff, at most 10 s and never shorter after more failures |
| Reattach.WaitDoubles | plugin/internal/server/server.go:433 | the first wait is the backoff, and each further failure doubles it up to 10 s, sixteen times at most |
| Reattach.Transport | plugin/internal/server/server.go:400-406 | the exec stream's writes reach the decoder in order up to the first error, and the decoder reflects the log as far as it was received |
| Reattach.Classify | plugin/internal/server/server.go:416-425 | the switch after an attempt, in its order: cancellation, bad output, an end without exit record, a finished pod or missing binary |
| Reattach.Round | plugin/internal/server/server.go:409-444 | one iteration extends the account: the verdict follows from what was received, and if the loop goes on its deadline, failure count and next command are right |
| Reattach.RunStep | plugin/internal/server/server.go:397-446 | for every behaviour of the stream: each attempt asked for exactly the bytes not yet received (run while there are none), waited as long as it should, went on only after a broken stream before the deadline, and the result is the one the last attempt calls for |
| ReattachProofs.AsksForTheRest | plugin/internal/server/server.go:439-444 | the command of an attempt asks for the log from the first byte not received |
| ReattachProofs.ReceivedIsPrefix | plugin/internal/server/server.go:391-394 | over any breaks, what was received is a prefix of the log: nothing lost, repeated or reordered |
| ReattachProofs.HonestOutcome | plugin/internal/server/server.go:391-396 | what went to the runner is an in-order prefix of the step's frames; an exit code means all of them and is the recorded int32; corruption is never reported for a well-formed log |
| ReattachProofs.ResultExactly | plugin/internal/server/server.go:412-438 | the exact condition of every result: runStep goes on exactly after a broken stream in time, gives up exactly when that is late, reports an end without exit record, a finished pod or missing binary, bad output and a cancellation each exactly for its cause |
| ReattachProofs.LastProgressExactly | plugin/internal/server/server.go:408-428 | the deadline counts from the end of the last attempt that brought bytes, or from the start |
| ReattachProofs.FailsExactly | plugin/internal/server/server.go:409-428 | failures are counted from the last attempt that brought bytes |
| ReattachProofs.RunsWhileNothingReceived | plugin/internal/server/server.go:439-444 | an attempt runs the step exactly while nothing was received, the first one always |
| ReattachProofs.ResumeOnce | plugin/internal/server/server.go:397-446 | a stream that breaks once, after any number of bytes: the second attempt brings the rest, all output is sent once and the code is returned |
| ReattachProofs.NilErrorExactly | plugin/internal/server/server.go:413-418 | the error is nil exactly when an exit record was decoded or a cancelled attempt's exec ended normally |
| ReattachProofs.CancelledStepReturnsNil | plugin/internal/server/server.go:417-418 | the input that shows a nil error without an exit record |
| ReattachProofs.CompletedExecIsHonest | plugin/internal/server/server.go:372-388 | the Exec handler reports completion exactly with an exit record and no cancellation, and then the runner has all of the output and the recorded code |
| ReattachProofs.AttemptsAreBounded | plugin/internal/server/server.go:408-445 | for a log of n bytes there are at most (n + 1) * (ReattachTimeout / reattachBackoff + 3) attempts, whatever the stream does |
| ReattachProofs.WaitsGrow | plugin/internal/server/server.go:426-438 | waits are in (0, 10 s], start again at the backoff after progress and double in a run of failures up to the cap |
| StepSystem.StartStep | plugin/internal/stephelper/helper.go:156-204 | every step of the system keeps: only the creator of the log may start the supervisor, once, and the record follows it |
| StepSystem.FollowerStep | plugin/internal/stephelper/helper.go:416-443 | one operation of a follower keeps what it has written, read and concluded true of the disk |
| StepSystem.FollowerStable | plugin/internal/stephelper/helper.go:421-437 | and so does every change the rest of the system makes to the disk |
| StepSystem.StepKeepsSysInv | plugin/internal/stepio/stepio.go:6-10 | every step of helpers, supervisor, followers, stream and plugin keeps the protocol's invariant |
| StepSystem.ExactlyOnce | docs/compatibility.md:14 | in every reachable state the decoder has read exactly the first Offset() bytes of the log and the runner was sent an in-order prefix of the logged frames |
| StepSystem.OutputIsPrefix | docs/compatibility.md:14 | what the runner saw of a stream is a prefix of what the step wrote to it |
| StepSystem.ExitMeansAll | plugin/internal/stepio/stepio.go:9-10 | a decoded exit code means the log is complete and read, every frame was sent, and the code is the recorded one |
| StepSystem.HonestResult | plugin/internal/server/server.go:412-431 | a settled step: nil error exactly with an exit record or for a cancelled attempt that ended normally; all output and the recorded code with it, -1 without it |
| StepSystem.CompleteFollowSettles | plugin/internal/server/server.go:412-422 | when a follow that returned 0 has had all its output delivered, the exit record has arrived: however its exec ends, the step settles with the recorded code and a nil error |
| StepSystem.OrdinaryRun | plugin/internal/stepio/stepio.go:6-10 | for any output and exit code there is a run of the whole protocol in which the runner gets all of the output and the code |
| StepSystem.LaunchRunsOnlyAtStart | plugin/internal/server/server.go:439-444 | an exec at offset 0 starts a helper that may start the step; at any later offset one that follows from there |
| StepSystem.RetriesExactly | plugin/internal/server/server.go:412-438 | without an exit record the plugin tries again exactly when only a broken stream, in time, is to blame |
| StepSystem.PollsToEnd | plugin/internal/stephelper/helper.go:416-443 | from any reachable state with a final log a follower left to poll returns the code the done file decides, and nothing else changes |
| StepSystem.StartedAtMostOnce | plugin/internal/stephelper/helper.go:156-162 | however many runs of a step directory overlap, at most one supervisor is ever started |
| StepSystem.FollowerVerdicts | plugin/internal/stephelper/helper.go:416-442 | follow returning 0 wrote exactly the final log from its offset on, exit record included; incomplete, all of a log that could not be opened, written or closed; gone, with a record in place, only if the supervisor died without creating done |
| StepSystem.StaysSighted | plugin/internal/stephelper/helper.go:461-465 | once the supervisor file is in place, no follower that has not looked for it in vain ever does, in any run |
| StepSystem.GoneMeansDead | plugin/internal/stepio/stepio.go:42-44 | a follower that began with the supervisor file in place, or had not yet looked in vain, says "gone" only of a supervisor that died without creating done |
| StepSystem.GoneWhileRunning | plugin/internal/stephelper/helper.go:159-204 | a run of the system in which a follower says "gone" of a step whose supervisor lives |
| StepSystem.PollsToGone | plugin/internal/stephelper/helper.go:434-441 | from any reachable state with the supervisor file and the done file missing, a follower that has concluded nothing else gets there if left to poll |
| StepSystem.FollowerConsistent | plugin/internal/stephelper/helper.go:416-443 | what a reachable follower has found is what bounded response starts from |
| StepSystem.FollowerReturns | plugin/internal/stephelper/helper.go:416-443 | once the log is marked done or its supervisor on record is dead, a follower in the running system makes at most a given number of further operations and less than one more liveness period of polls; then it has returned with the code the done file decides, the rest of the log written, whatever all others do |
| StepSystem.FinalLogStays | plugin/internal/stephelper/helper.go:369-379 | a closed log, or that of a dead supervisor, never changes again in any run |
| Environments.StepKeepsInv | plugin/internal/server/server.go:562-637 | every step of every handler keeps the lock, work and removal invariants |
| Environments.MutualExclusion | plugin/internal/server/server.go:85-93 | in every interleaving at most one handler is inside an environment, and its lock is full exactly then |
| Environments.PodBeforeUse | plugin/internal/server/server.go:176-194 | pod is assigned at most once, creation happens only before it is, and nothing is executed or copied until it is |
| Environments.FailedBootDeletes | plugin/internal/server/server.go:186-193 | a failed boot has issued a delete before it releases the lock |
| Environments.ShutdownSnapshot | plugin/internal/server/server.go:600-609 | shutdown empties the registry and starts exactly one task per environment that was in it |
| Environments.ShutdownDeletesOnce | plugin/internal/server/server.go:609-619 | a task issues exactly one delete, and under a running handler only once the context has expired |
| Environments.NoLeakedJob | plugin/internal/server/server.go:562-595 | with the runner's discipline, after a successful Remove of a registered environment no later state of any run has a Job of that id |
| Environments.LeaksExactly | plugin/internal/server/server.go:562-637 | with the discipline or without, a Job that a Remove or a shutdown task deleted under the lock can come back exactly when, at the delete, the environment had no pod and an uncancelled Start was waiting for its lock |
| Environments.StaysSealed | plugin/internal/server/server.go:624-637 | no step of any handler, with the discipline or without, brings back an environment that is forgotten, has no Job and no Start left that could create one |
| Environments.SuccessfulRemoveCounts | plugin/internal/server/server.go:585-594 | a Remove about to answer success to a waiting runner has removed its environment |
| Environments.LeakWithoutDiscipline | plugin/internal/server/server.go:624-637 | such a state is reached: a concrete run without the discipline boots an environment after its removal |
| Environments.ShutdownMayLeak | plugin/internal/server/server.go:597-621 | a run under the discipline, with time left, in which a shutdown task deletes its Job under the lock and the Job comes back |
| Handlers.Plugin.Interfere | plugin/internal/server/server.go:80-93 | what a handler may rely on between its critical sections: its own place, its environment's pod while it holds the lock, that a pod once set stays, and that a forgotten environment stays forgotten |
| Handlers.Plugin.Await | plugin/internal/server/server.go:570-575 | the select: the lock, or the end of the context, whichever the scheduler picks, or still blocked with the lock taken and the context going on; with anything happening before, during and after the wait |
| Handlers.Plugin.Acquire | plugin/internal/server/server.go:624-637 | not found exactly for an unregistered id; otherwise the lock, or a cancellation of the context |
| Handlers.Plugin.Start | plugin/internal/server/server.go:170-198 | not found exactly for an unregistered id; success means the pod is set, also when the answer cannot be sent any more, and a failed boot that it is not and, if its one delete succeeded, that there is no Job; a boot fails only for a cancellation or a failing backend; an environment that was started already is refused, neither booted again nor deleted; no return leaves the lock held; with anything happening in between |
| Handlers.Plugin.Boot | plugin/internal/server/server.go:181-194 | afterwards the environment has a pod exactly on success, which only a cancellation or a failing backend prevents |
| Handlers.Plugin.Use | plugin/internal/server/server.go:330-339 | not found exactly for an unregistered id; once the lock is held the backend is used exactly when the environment has a pod |
| Handlers.Plugin.Forget | plugin/internal/server/server.go:576-578 | takes the environment out of the registry and nothing else |
| Handlers.Plugin.DeleteJob | plugin/internal/server/server.go:585-590 | a successful delete removes the Job |
| Handlers.Plugin.Remove | plugin/internal/server/server.go:562-595 | unless it was cancelled while waiting, an environment this process ever had is not registered afterwards; success for a registered one, still waited for and under the discipline, leaves no Job; for an unknown id a delete is issued exactly unless it cannot be ours, and success leaves no Job |
| Handlers.Plugin.Shutdown | plugin/internal/server/server.go:600-609 | the new state of the whole plugin, with one waiting task per environment |
| Handlers.Plugin.DropEnvironment | plugin/internal/server/server.go:610-619 | exactly one delete, and the result says whether it was issued under the lock; if not, the context has expired |
| Readiness.Assessor.Note | plugin/internal/k8s/backend.go:247-282 | one status: the new timers and whether it is fatal |
| Readiness.Assessor.Assess | plugin/internal/k8s/backend.go:232-297 | one pod: the timers after its statuses, up to the first fatal one, and the verdict |
| Readiness.AllReady | plugin/internal/k8s/backend.go:305-324 | true exactly when the last status of every container and sidecar says ready |
| Readiness.ReasonsExactly | plugin/internal/k8s/backend.go:249-269 | which waiting reasons are retried pulls, hopeless pulls, crash loops, containers that cannot be created, and none of these |
| Readiness.TimersExactly | plugin/internal/k8s/backend.go:249-273 | by the words of the reason, what starts or keeps a pull timer and what clears it |
| Readiness.FatalExactly | plugin/internal/k8s/backend.go:247-282 | by the words of the reason and the restart count, what is fatal |
| Readiness.Newest | plugin/internal/k8s/backend.go:223-228 | a pod than which none was created later |
| Readiness.FatalByTimers | plugin/internal/k8s/backend.go:251-281 | judged by the timers a status is fatal exactly when it is by the history: a pull error persisted for PullFailAfter with nothing clearing it, a sidecar at its restart limit, main at once |
| Readiness.WatchMeaning | plugin/internal/k8s/backend.go:247-282 | over any history no failure is reported exactly when nothing in it was fatal |
| Readiness.FirstFatal | plugin/internal/k8s/backend.go:247-282 | the failure reported is that of the first fatal status |
| Readiness.WaitReady | plugin/internal/k8s/backend.go:186-221 | the first poll that decides is the one that is answered, and it is answered as it decides |
| Readiness.OutcomeMeaning | plugin/internal/k8s/backend.go:184-221 | ready only for a running pod with everything ready and nothing fatal ever seen; a container's failure only for the first fatal status of all polls |
| Readiness.DecidesInTime | plugin/internal/k8s/backend.go:195-220 | a pod that ended or is ready, anything fatal and the end of the context are each answered at the poll that sees them |
| Readiness.LastingPullErrorFails | plugin/internal/k8s/backend.go:250-258 | a container seen in every poll of a span of PullFailAfter as waiting with ErrImagePull or ImagePullBackOff makes the wait fail by the end of the span, whatever else the pod shows |
| Chunks.ChunkWriter.Write | plugin/internal/tarx/chunk.go:27-40 | sent chunks and buffer together gain exactly what was written, chunks have exactly the size, the buffer stays below it; a failed send loses exactly the last chunk of the bytes reported written |
| Chunks.ChunkWriter.Flush | plugin/internal/tarx/chunk.go:42-50 | sends the remainder, if any, and empties the buffer either way |
| Chunks.ChunkWriter.constructor | plugin/internal/tarx/chunk.go:18-25 | a size that is not positive means 64 KiB |
| Chunks.EvenChunksUnique | plugin/internal/tarx/chunk.go:27-40 | the chunks depend on the bytes alone, not on how they were written |
| Chunks.ChunkReader.Read | plugin/internal/tarx/chunk.go:63-74 | returns the next bytes, some if there are any and there is room, and the stream's end exactly when none are left |
| Chunks.ReadAll | plugin/internal/tarx/chunk.go:52-74 | with any non-empty buffers, all chunks' bytes in order, then the stream's end |
| Chunks.SendArchive | plugin/internal/server/server.go:543-559 | full chunks and one non-empty rest that carry the archiver's output; all of it if it ended cleanly and no send failed, else a prefix |
| Chunks.Download | runner/patches/0001-feat-act-add-a-gRPC-client-for-out-of-process-backen.patch:497-545 | the runner reads the archive's bytes or learns that they are not all; empty is reported exactly when nothing was written |
| Upload.ChunkSender.Flush | runner/patches/0001-feat-act-add-a-gRPC-client-for-out-of-process-backen.patch:487-495 | sends what is buffered, the first time even nothing, labelled only the first time |
| Upload.ChunkSender.Write | runner/patches/0001-feat-act-add-a-gRPC-client-for-out-of-process-backen.patch:472-485 | full messages, only the first of all labelled, that with the buffer gain exactly what was written |
| Upload.SendUpload | runner/patches/0001-feat-act-add-a-gRPC-client-for-out-of-process-backen.patch:433-455 | a complete upload is at least one message, the first labelled and no other, each within 64 KiB, with exactly the archive's bytes; an incomplete one a prefix |
| Upload.Pump | plugin/internal/server/server.go:470-497 | what reaches the archiver and how it ends: the whole stream, a cut stream, a mislabelled chunk, or the archiver leaving |
| Upload.PumpedOnce | plugin/internal/server/server.go:470-497 | for given chunks, stream end and archiver there is only one such outcome |
| Upload.CopyIn | plugin/internal/server/server.go:448-515 | the answer for every stream, invalid whenever a labelled later chunk is reached and success only without one and with an archiver that exited 0; the bytes piped are determined; once the archiver ran, the answer comes only after the stream's end |
| Upload.AnswersExactly | plugin/internal/server/server.go:454-514 | each answer with its exact condition on the messages: invalid exactly when the first one does not say where to or a reached later one does, otherwise by the environment and the archiver's end |
| Upload.UploadIsWellFramed | docs/compatibility.md:15 | the runner's framing is never what the plugin objects to, and the archiver gets the bytes in order |
| Upload.CopyFiles | runner/patches/0001-feat-act-add-a-gRPC-client-for-out-of-process-backen.patch:433-464 | both ends: success is reported only for an archive written whole and sent whole whose archiver exited 0, having seen all of it unless it stopped reading by itself, and never over a failed send although its error is dropped; with nothing failing exactly when environment and destination are named |

## Left out

- Kubernetes, client-go, gRPC and protobuf: an exec delivers some in-order prefix of what the helper wrote and then ends; creating and deleting act on a set of Jobs.
- Real processes, `/proc`, pipes and the file system: exclusive creation, append, reading a file and "this process still runs" are atomic steps.
- Shell scripts, and what killing a step's processes does; generated code, charts, flags, listeners, podspec building and option parsing.
- Error texts, progress lines, notes, the cap on collected diagnostics and log tails.
- Int64 wrap-around of the decoder's offset: offsets are unbounded, and where an offset becomes an argument the log is taken to be shorter than 2^63 bytes.
- ReattachProofs.ReceivedIsPrefix: takes what each exec brings as a prefix of what its command asked for; that followers do this is proved in StepSystem, not assumed there.
- Supervisor.StepKeepsInv: messages about a step that cannot be started are taken to be at most MaxPayload bytes; the source does not bound them (plugin/internal/stephelper/helper.go:271), and a longer one would read as corruption.
- Supervisor.StepKeepsInv: the readers and the main goroutine are a state machine over their steps, because they run concurrently; only frameLog's critical sections are methods of a class.
- StepSystem.StartedAtMostOnce: holds for the lifetime of one step directory; a later step's collect, which may remove a finished one, is not modelled.
- StepSystem.FollowerVerdicts: says nothing of "gone" when the follower found no supervisor record; GoneMeansDead says when it finds one.
- StepSystem.FollowerReturns: for a follower that is not killed and whose reads and writes succeed.
- StepSystem.OutputIsPrefix: for stderr only if the helper itself said nothing there, since both share the stream.
- Follow.FollowLog: watches a follower for as many operations as there are observations; so do RunStep for its attempts and WaitReady for its polls.
- Follow.FollowResponds: reads and writes are taken to succeed, since a failing one ends follow at once.
- A transport that writes again after a write error: it is taken not to.
- Clocks: attempts, waits and polls take whatever time they take, but time does not go back; WaitReady reads the clock once per poll.
- Handlers.Plugin.Start: the parts of booting other than creating the Job and its end, and Create's checks, are not modelled; Exec and the copies appear in Handlers only as far as they use the lock and the pod.
- Environments.NoLeakedJob: takes a create that was cancelled to make no Job, and environment ids to be fresh.
- Readiness.Newest: which of several pods created in the same instant is taken is not determined by the source; the model takes the first listed.
- Upload.CopyFiles: how tar reacts to its input is a choice of the environment; only the bytes it gets and how they end are modelled. An answer given after the stream broke is taken not to arrive.
- UpdateFromImageEnv, CopyDir's file walk and the rest of the runner's patches.
