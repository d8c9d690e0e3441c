# A verified model of the MapReduce coordinator

The system is a single master that hands map and reduce tasks to workers over TCP, logs every
completed task to an append-only file, and rebuilds itself from that file after a crash. The work it
coordinates is a word count over text splits. This project models that system in Dafny and proves
what its design promises, over every run and every input.

`dafny verify dfyconfig.toml` checks the whole project.

## How the model is laid out

| module | what it holds |
|---|---|
| `Bytes`, `Crc64` | byte strings, network-order integers, buffer copies, the table-driven CRC-64 |
| `Scheduler` | the master's handlers as functions on its state, and the state invariant |
| `Recovery` | completion records, legal logs, replay |
| `Protocol`, `SweepFree`, `Guarantees`, `Completion` | the master as a state machine over connect, disconnect, get-task, report, timeout sweep, crash and restart; invariants and theorems over whole runs |
| `CrossPhase`, `OutOfTable` | concrete runs that break the invariant when the sweep is on |
| `Coordinator` | the master as a mutable object with its task tables; every handler is proved to compute the `Scheduler` function, and the loader to compute the replay |
| `Effects` | what each event does to the tables, field by field, and what a worker does with each reply |
| `Aof`, `AofWriter` | the bytes of the log file: format, loader, writers |
| `Acceptance`, `Layout` | which bytes the loader takes, as laws about what was written; where each field of files and messages stands |
| `Text`, `MapWorker` | line buffers, tokens, hashing, partition files |
| `ReduceWorker`, `GroupWalk`, `ReduceRun`, `WordCount` | reading partitions back, sorting, the group walk, output files, and when they are the word count of the texts |
| `Files`, `World`, `EndToEnd`, `Finishing`, `Lifetime` | worker processes over shared directories together with master and log file, in every interleaving; what a finished job holds, and when a job can be finished, with and without a restart |
| `Framing`, `Rpc` | read and write buffers of a connection, length-prefixed messages, encoders and decoders |
| `Wire` | every reply and report of a run, through encoder, frame and decoder |

The state machine over values (`Scheduler`, `Protocol`, `Files`, `World`) is where the theorems about
runs live. The objects and array-filling methods (`Coordinator.Master`, `Framing.Client`,
`ReduceRun.RecordList`, the writers, the walk) follow the imperative code and are proved equal to it.
The worker steps of `World` use the same functions that `MapWorker.TokenizeFile`, `GroupWalk.Walk`
and `ReduceRun.Reduce` are proved to compute.

## What the code does that its documentation does not say

- **The sweep does not run.** The call that would start it is commented out (src/event_loop.c:78-80),
  and a disconnect leaves the slot of the lost worker running (src/master.c:400-414), although
  README.md:142 and README.md:219 say it returns to PENDING. `Lifetime.FinishesHereIff` gives the exact
  consequence for the whole system: without a restart the job can be finished if and only if it has
  not failed, every running task is held by a connected worker, no connected worker is bound to report
  the failure of a third attempt, and no token occurs more than 1024 times.
- **Late reports can cross phases.** With the sweep on, a report is filed under the current phase, not
  under the kind of the reported task (src/master.c:273-278). A late map report can then complete a
  reduce that never ran, hit a completed reduce, or, from map 64 on, index past the reduce table.
  `Protocol.StepKeepsPInv` proves that these are the only steps that break the invariant, as an
  if-and-only-if with a condition on the state before the step (`Protocol.Misfire`).
  `CrossPhase.LateReportFinishesJob` and `OutOfTable.LateReportLeavesTable` give runs that do it.
  Without the sweep it cannot happen (`SweepFree.SweepFreeRuns`), so nothing is assumed about reports
  in the shipped configuration.
- **A frequent word fails the job for good.** A reduce worker gives up on a key with more than 1024
  values (src/worker_reduce.c:196-200) on every attempt, before and after any restart.
  `Finishing.FinishesIffWithinLimit` proves that after any clean run the job can be finished, restarts
  allowed, if and only if no token occurs more than 1024 times and the master is up or left no torn
  record. `Finishing.FrequentWordFails` gives the texts: n lines of one word, for n above 1024.
- **A late success is accepted** when the timed-out slot has not been reassigned: PENDING to COMPLETED
  is a transition beyond the diagram at README.md:136-145 (`CrossPhase.PendingCompletes`).
- **Long words.** A token of 8191 bytes is written by the map worker and lost by the reduce worker; a
  word that straddles two line buffers is counted in pieces; text behind a NUL is dropped up to the
  end of its buffer. `WordCount.CountsTheWordsIff` gives the exact condition under which the output is
  the word count of the texts.
- **A torn record keeps the master down**: the loader refuses the file (`Aof.CutFile`).

## Assumptions

- Workers follow the loop of src/worker.c:194-256: one request at a time, each assignment reported at
  most once, on its own connection, with the ids received. In `World` this is not assumed but follows
  from the modelled loop.
- With the sweep on, the run theorems ask that no report misfires (`Protocol.Clean`,
  `EndToEnd.WClean`).
- An append to the log either succeeds whole or the master dies, leaving any proper part of a record.
- A rename is atomic. Process ids differ among live processes. Input texts do not change.
- `char` is taken as signed in the hash; where it is unsigned, words with bytes above 127 go to other partitions.
- Reads and writes on sockets take arbitrary amounts; hard write errors are not modelled.

## Model

| member | source | states |
|---|---|---|
| EndToEnd.DoneHoldsWordCount | src/master.c:267-348 | in every run without a misfired report, under any interleaving of workers, re-executions, disconnects, timeouts, kills and restarts and from any initial directory contents, JOB_DONE means the R output files, read line by line as word, tab and decimal number, hold exactly the count of all tokens, each word in one file; it is the sequential word count of the splits if and only if every split is countable |
| EndToEnd.ShippedCountsWords | src/event_loop.c:78-80 | the same for every sweep-free run, with no assumption on reports |
| EndToEnd.RightIffCountable | src/worker_reduce.c:133-138 | output files holding the token count hold the word count of the texts if and only if the texts are countable; no other output bytes would do |
| EndToEnd.HeldOnce | src/worker_reduce.c:133-138 | the output bytes determine the bag of words they count |
| EndToEnd.IntermediatesComplete | src/worker_map.c:95-149 | in JOB_REDUCE and JOB_DONE all M times R intermediate files exist and are full partitions |
| EndToEnd.VisibleIsWhole | src/worker_map.c:139-149 | from any initial directories, at every moment of a clean run every mr-x-y is the full partition y of split x, however renames of repeated attempts interleave, or still is what was there at the start |
| EndToEnd.SuccessIsTidy | src/worker_map.c:139-149 | in every clean run a worker with a success to report has published all right files of its task and left none of its temporaries behind |
| EndToEnd.BootFromDisk | src/aof.c:330-459 | killing the master after any run and loading the bytes of its file gives the same master with unfinished work forgotten; a torn record keeps it down |
| EndToEnd.SweepFreeIsClean | src/event_loop.c:78-80 | sweep-free runs of the whole system never misfire |
| Finishing.FinishesIffWithinLimit | src/worker_reduce.c:196-200 | after every clean run of the whole system some clean continuation reaches JOB_DONE if and only if no token occurs more than 1024 times and the master is up or left a whole log file; the continuation is built move by move |
| Finishing.FrequentWordFails | src/worker_reduce.c:196-200 | a job over one text of n lines holding one word can be finished if and only if n is at most 1024 |
| Finishing.TornStays | src/aof.c:101-135 | a torn record keeps the master down in every continuation |
| Lifetime.FinishesHereIff | src/master.c:400-414 | after every sweep-free run that leaves the master up, some continuation without kill and sweep reaches JOB_DONE if and only if the job has not failed, every running slot is held by a connected process, no connected process is bound to report the failure of a third attempt, and no token occurs more than 1024 times |
| Lifetime.StuckStays | src/master.c:68-96 | a failed job, an unheld running slot or a third attempt bound to fail stand in the way of JOB_DONE for the rest of the lifetime |
| Lifetime.AlwaysPeered | src/worker.c:194-256 | after every clean run each connection of the master has its process |
| Wire.ReplyArrives | src/worker.c:74-105 | whatever the master answers in any clean run fits one frame, and the worker decodes exactly that answer, whatever follows on the stream |
| Wire.ReportArrives | src/master.c:365-389 | whatever a worker reports in any clean run of the system fits one frame, and the master decodes from it the task, attempt and result on its books |
| Wire.ReceiveResponse | src/worker.c:74-105 | receive, peek and decode accept exactly the whole frames that hold a response, for any cutting of the input |
| Wire.ParseRequest | src/master.c:365-389 | peek and decode accept exactly the two request kinds |
| Wire.UnderstoodWasEncoded | src/worker.c:74-105 | the worker understands nothing but encoded replies, except that anything may follow the kind byte of DONE |
| Wire.RequestedWasEncoded | src/master.c:365-389 | a payload is a request for work if and only if its first byte says so, and a given report if and only if it is the encoding of it |
| Finishing.DoneWithinLimit | src/worker_reduce.c:196-200 | a clean run that reaches JOB_DONE has no token with more than 1024 occurrences |
| Finishing.WorkOn | src/worker.c:194-256 | within the limit, a worker process left alone brings its task from any stage to a successful report |
| Finishing.OverLimitFails | src/worker_reduce.c:196-200 | over the limit, a reduce worker that has read everything can only give up and report failure |
| EndToEnd.RunKeepsWInv | src/worker.c:194-256 | every run keeps the joint invariant of master, log file, connections, processes and files |
| World.MoveKeepsWInv | src/worker.c:194-256 | every move that is not a misfired report keeps the joint invariant |
| World.Projects | src/worker.c:194-256 | the master's part of every move of the system is a legal protocol step, so conforming workers are derived |
| World.BootIsRestart | src/aof.c:330-459 | loading the file of any down state is the protocol's restart |
| Effects.ReplyObeyed | src/worker.c:194-256 | a worker told DONE never asks, works or reports again; one told to wait may ask again; one given a task starts on it with the ids, counts and path received |
| Effects.AnswerObeyed | src/worker.c:194-256 | a worker whose report is acknowledged may ask again; one whose report is not has no connection and never asks, works or reports again |
| Files.ActOk | src/worker_map.c:82-158 | every step of a worker process leaves each published file alone or makes it right, and keeps what the process has built so far right |
| Guarantees.CrashRecovery | src/aof.c:367-451 | crash and restart after any run give the same paths, counts and completed sets, every other slot fresh PENDING, phase from the counters |
| Guarantees.LogStaysLegal | src/aof.c:413-451 | over any number of crashes the log names no task twice, has no reduce before the last map, at most M+R records, and every prefix replays to a state satisfying the invariant |
| Guarantees.ReachableInv | src/master.c:303-330 | after every clean run: counters equal numbers of completed slots, phases match counters, JOB_FAILED exactly when some slot failed, slot invariants, and no handler has left its arrays |
| Guarantees.DoneMeansLogged | src/util.c:101-113 | JOB_DONE means every map and reduce is in the log |
| Guarantees.TerminalIsFinal | src/master.c:350-363 | once a run has reached a terminal phase, every continuation up to a crash leaves tables, counters, phase, log and issued assignments as they are |
| Guarantees.WaitMeansWork | src/master.c:160-186 | in every run the assertion guarding WAIT holds and WAIT is answered only while a slot of the phase is running |
| Guarantees.SupersededIsDropped | src/master.c:286-301 | in every clean run an in-phase report for a superseded attempt changes no slot, counter, phase or log |
| Guarantees.LatestSuccessCounts | src/master.c:302-330 | in every clean run an in-phase success for the latest attempt completes the slot and is logged, whether the slot is running or, timed out, pending again |
| CrossPhase.PendingCompletes | README.md:136-145 | a run in which a pending slot turns completed |
| Guarantees.AttemptsRunOut | src/master.c:136-153 | in one lifetime no (kind, task, attempt) is issued twice; three per task in all; the remaining attempts fall by one per assignment and never rise |
| Guarantees.CanFinish | README.md:156-174 | of the master alone: after any clean run a restart leaves a master that reaches JOB_DONE with one request and one report per unfinished task, provided workers report success; when they can is FinishesIffWithinLimit |
| Protocol.StepKeepsPInv | src/master.c:267-301 | a step keeps the protocol invariant, staying inside the arrays included, if and only if it is not a misfired report |
| Protocol.ReportKeepsPInv | src/master.c:267-348 | a report keeps the invariant if and only if it does not misfire |
| Protocol.ReportInside | src/master.c:270-287 | an enabled report leaves the arrays if and only if it is a map report handled in JOB_REDUCE with an id of at least 64, so every other report meets what the handler needs |
| Protocol.MisfireBreaks | src/master.c:273-278 | every misfired report breaks it |
| Protocol.RunKeepsPInv | src/master.c:188-363 | every clean run keeps the invariant |
| Protocol.SweepKeepsPInv | src/master.c:101-125 | the sweep keeps it |
| Protocol.GetKeepsPInv | src/master.c:188-265 | an assignment keeps it, attempts being issued once |
| Effects.AssignmentRecorded | src/master.c:127-158 | in every state of a clean run a request is answered with the lowest pending slot of the phase; exactly that slot and the connection record the next attempt number, its owner, its start and a running history entry, and the reply carries them |
| Effects.NothingToGive | src/master.c:160-186 | with nothing pending a request changes nothing; the answer is half the timeout, rounded down, while the phase runs, and DONE after it |
| Effects.SuccessRecorded | src/master.c:302-330 | a success of the latest attempt makes its slot completed, closes its history entry as succeeded at that time, adds one to its counter and one record to the log, moves the phase exactly on the last of its kind, and touches nothing else |
| Effects.FailureRecorded | src/master.c:68-96 | a failure of the latest attempt closes its history entry as failed; the slot is pending again, or failed together with the job on the third attempt; nothing else changes |
| Effects.ReportWhenOver | src/master.c:350-363 | in a terminal phase a report drops its connection and does nothing else |
| Effects.ConnectionRecorded | src/master.c:391-414 | connecting and disconnecting overwrite the books of the connection and nothing else |
| Effects.SweepRecorded | src/master.c:101-125 | a slot is timed out, its history entry closed as such, if and only if its attempt started more than the timeout ago and no slot before it was overdue on a third attempt; such a slot fails the job; every other slot is as before |
| Effects.RestartRecorded | src/aof.c:367-451 | a restart keeps the log; a slot is completed exactly when the log has its record and is as new otherwise; the phase is the one the completions call for |
| SweepFree.SweepFreeRuns | src/master.c:127-158 | in sweep-free runs every outstanding assignment is the running attempt of its owner, of the current phase's kind, unless the job failed; every such run is clean |
| SweepFree.NoReportWhenDone | src/master.c:350-363 | in sweep-free runs the JOB_DONE branch of the report handler is unreachable |
| SweepFree.LostWorkerStalls | src/master.c:400-414 | after a disconnect in mid-task no sweep-free continuation of the lifetime reaches JOB_DONE |
| Completion.CompletesIffNoOrphan | src/master.c:400-414 | of the master alone: after a sweep-free run, a master that is up and has not failed can reach JOB_DONE without crash or sweep, provided workers report success, if and only if no running task is without a connected holder; when workers can report success is FinishesHereIff |
| Completion.FirstWorkerLost | README.md:219 | for every job, the run connect, get-task, disconnect makes an orphan, and the job can no longer be finished in that lifetime, whatever workers report |
| CrossPhase.LateReportFinishesJob | src/master.c:273-278 | a concrete run with the sweep on: JOB_DONE without a reduce, a map logged twice, and a restart that fails the WAIT assertion |
| OutOfTable.LateReportLeavesTable | src/master.c:273-287 | for every job with 65 maps, a run with the sweep on, clean up to its last step, whose last report indexes past the reduce table |
| Scheduler.GetTaskKeepsInv | src/master.c:127-186 | get-task keeps the invariant; no PENDING, no FAILED and a counter below its bound force a running slot |
| Scheduler.TaskDoneKeepsInv | src/master.c:267-348 | a report in a running phase stays inside the arrays and keeps the invariant if and only if it neither points outside them nor hits a completed slot |
| Scheduler.SweepKeepsInv | src/master.c:101-125 | the sweep keeps the invariant, so counters still equal completed slots and a slot out of attempts fails the job |
| Scheduler.ConnectionsKeepInv | src/master.c:391-414 | connects and disconnects keep the invariant |
| Scheduler.EndAttemptOk | src/master.c:68-96 | closing an attempt keeps the slot invariant: history ids, single running entry, owner, attempt bound |
| Scheduler.AssignOk | src/task.h:60-64 | assigning keeps the slot invariant |
| Scheduler.DoneFull | src/util.c:101-113 | the completed count equals the number of slots exactly when all are completed |
| Recovery.ReplayIsForgotten | src/aof.c:367-451 | replaying the log of a state that agrees with it gives the state with unfinished work forgotten |
| Recovery.ReplayInv | src/aof.c:413-451 | every legal log replays to a state satisfying the invariant |
| Recovery.LogBounded | README.md:212-213 | a legal log has at most M+R records |
| Recovery.LogShape | src/aof.c:413-451 | a legal log names nothing twice and has maps before reduces |
| Coordinator.Master.constructor | src/task.h:85-90 | a fresh process: zeroed tables, empty view |
| Coordinator.Master.MaybeAdvancePhase | src/util.c:101-113 | the in-place phase step is `Advance` |
| Coordinator.Master.TaskAttemptEnded | src/master.c:68-96 | the in-place slot update is `EndAttempt`, and exhausting the attempts fails the job |
| Coordinator.Master.ChooseAvailableTask | src/master.c:127-158 | the scan assigns the lowest pending slot, or changes nothing |
| Coordinator.Master.HandleGetTask | src/master.c:188-265 | new state and reply are those of `Scheduler.GetTask` |
| Coordinator.Master.HandleTaskDone | src/master.c:350-363 | new state, acknowledgement, leaving the arrays, and appended bytes are those of `Scheduler.TaskDone`, for any message and worker slot |
| Coordinator.Master.TaskDoneHelper | src/master.c:267-348 | the same inside the running phases |
| Coordinator.Master.AcceptSuccess | src/master.c:302-330 | a success completes the slot, counts it, appends its 17-byte record and then advances the phase |
| Coordinator.Master.OnConnect | src/master.c:391-398 | resets the slot of the connection |
| Coordinator.Master.OnDisconnect | src/master.c:400-414 | clears the slot of the connection and touches no task |
| Coordinator.Master.SweepTimeouts | src/master.c:101-125 | the loop over the table in place is the sweep function, stopping at the first slot that fails for good |
| Coordinator.Master.SweepNow | src/master.c:415-436 | the periodic job is `Scheduler.Sweep` |
| Coordinator.Master.LoadLog | src/aof.c:330-459 | accepts a file exactly when `Aof.Load` does, and then the tables are the replay of its records; which files those are is stated by the `Acceptance` lemmas |
| Coordinator.Master.ReplayRecords | src/aof.c:413-443 | the record loop fails exactly on a torn, damaged or out-of-range record and otherwise marks the logged slots |
| Coordinator.Master.ResetSlots | src/aof.c:374-411 | factory and definition passes build the fresh state of the job |
| Coordinator.ReadJobHeader | src/aof.c:173-265 | the reading loop is `ReadJob`, error cases included |
| Aof.FileReadBack | src/aof.c:330-459 | the file of any legal job and record list loads back to that job and list; followed by a part of a record it is refused |
| Aof.CutFile | src/aof.c:101-135 | every prefix of a file: refused inside the headers or inside a record, and otherwise loads exactly the records before the cut |
| Aof.DamageDetected | src/aof.c:124-132 | a record damaged within eight consecutive bytes of its body, or only in its checksum, is accepted if and only if it is unchanged |
| Aof.DamagedFileRejected | src/aof.c:413-443 | a file with such a damaged record is refused |
| Aof.JobReadBack | src/aof.c:173-265 | a written job header reads back to the job, whatever surrounds it |
| Acceptance.HeaderAccepted | src/aof.c:63-96 | a file passes the header test if and only if it starts with the sealed magic, version, flags and time |
| Acceptance.JobAccepted | src/aof.c:173-265 | what the reader accepts as a job header is the sealed image of the counts and paths it returns, at most 256 maps, 64 reduces and paths under 1024 bytes |
| Acceptance.RecordAccepted | src/aof.c:101-135 | a record is taken if and only if it is the image of that record and the task is in range |
| Acceptance.RecordSkipped | src/aof.c:413-443 | a record is skipped if and only if it is sealed and of no known kind, and rejects the file if and only if it is not sealed or out of range |
| Acceptance.LoadedWasWritten | src/aof.c:330-459 | a file that loads without a skipped record is byte for byte what the writers produce for what it loads to |
| Acceptance.JobDamageDetected | src/aof.c:245-252 | after any damage within eight consecutive bytes of a job header, or in its checksum alone, a job header is read from its place and length if and only if nothing changed |
| Acceptance.DamagedJobRefused | src/aof.c:245-252 | a job header damaged that way into the header of another job is accepted if and only if the job is the same |
| Acceptance.DamagedJobNotLoaded | src/aof.c:330-459 | a file with such a job header is refused |
| Acceptance.DamagedHeaderRefused | src/aof.c:88-95 | a file header damaged within eight consecutive bytes, or in its checksum alone, passes if and only if it is unchanged |
| Layout.HeaderLayout | README.md:180-191 | magic "MAPREDUC", version 1, flags 0, time and checksum at their offsets |
| Layout.JobFields | README.md:180-191 | counts, and path i behind its 2-byte length at the offset its predecessors give |
| Layout.RecordLayout | README.md:180-191 | kind 1 or 2, task, attempt and checksum at their offsets, 17 bytes in all |
| Layout.FileLayout | README.md:180-191 | header at 0, job header at 32, record k 17k bytes behind it, and nothing after the last |
| Bytes.NetworkOrder32 | src/rpc.c:10-43 | a written 32-bit number is its bytes, most significant first |
| Crc64.NetworkOrder64 | src/aof.c:30-59 | the stored checksum is the eight bytes of the computed one, most significant first |
| AofWriter.WriteFileHeader | src/aof.c:30-59 | fills its buffer with the sealed file header |
| AofWriter.WriteRecord | src/aof.c:140-165 | fills its buffer with the sealed record |
| AofWriter.JobBufferSize | src/aof.c:502-507 | the size computed by the loop is exactly the length of the job header |
| AofWriter.WriteJob | src/aof.c:270-312 | refuses exactly the buffers too small for counts and paths, overruns exactly those that lack only room for the checksum, and otherwise writes the sealed job header |
| AofWriter.ReaderBufferFits | src/aof.c:195-198 | the reader's allocation holds every job header the writer produces |
| AofWriter.InitLog | src/aof.c:475-535 | an empty file gets both headers, any other is kept |
| Crc64.TableStepIsEightBits | src/crc64.c:45-174 | one table step is eight steps of the reflected division by the Jones polynomial, for every state and byte |
| Crc64.Compute | src/crc64.c:176-184 | the loop computes the bit-serial CRC of the bytes |
| Crc64.BitSerialAppend | src/crc64.c:176-184 | the CRC composes over concatenation |
| Crc64.StateInjective | src/crc64.c:176-184 | different start states stay different over any bytes |
| Crc64.BurstDetected | src/crc64.c:176-184 | two strings that differ only within eight consecutive bytes have equal CRCs if and only if they are equal |
| Text.TokenizeLine | src/worker_map.c:27-33 | the split-and-skip loop yields the words of the line |
| Text.Separators | src/worker_map.c:30 | the separators are space, tab, newline and carriage return |
| Text.TokensAreWordsIff | src/worker_map.c:18-43 | the tokens of a text are its words if and only if it has no NUL and no word straddles two line buffers |
| Text.TokensCount | src/worker_map.c:18-43 | without NULs there is one extra token per straddling word |
| Text.LinesFitNoCuts | src/worker_map.c:14 | lines that fit the buffer cut no word |
| MapWorker.GetHash | src/util.c:11-19 | the shift-and-add loop over the C string computes, modulo 2^64, 5381 times 33^n plus the sum of its n signed characters times falling powers of 33 |
| MapWorker.HashIsPolynomial | src/util.c:11-19 | the same closed form for the hash function |
| MapWorker.PartitionFormula | src/worker_map.c:74-78 | the partition of a word as that polynomial modulo 2^64 modulo R |
| MapWorker.Emit | src/worker_map.c:74-78 | one record line goes to the file of the token's partition |
| MapWorker.TokenizeFile | src/worker_map.c:18-43 | after the token loop each handle holds exactly its partition of the tokens |
| ReduceWorker.PartitionReadBack | src/worker_reduce.c:75-107 | reading a partition file returns exactly the tokens of at most 8190 bytes, in order |
| ReduceWorker.RecordReadBack | src/worker_reduce.c:83-94 | one written record reads back as its key if and only if the key has at most 8190 bytes |
| ReduceWorker.WholeRecordReadBack | src/worker_reduce.c:83-94 | a written record whose line fits the buffer reads back with its key and the value "1" |
| ReduceWorker.RecordIffTab | src/worker_reduce.c:83-94 | a buffer holds a record if and only if it has a tab behind at least one byte and before any NUL, and the key is what stands before the first tab |
| ReduceRun.RecordList.Push | src/worker_reduce.c:44-61 | appends one record; capacity doubles exactly when full; nothing is lost |
| ReduceRun.RecordList.ReadFile | src/worker_reduce.c:75-107 | appends the well-formed records of the file in order and skips the rest |
| ReduceRun.Reduce | src/worker_reduce.c:142-232 | for any key-ordered permutation as the sort, publishes if and only if no key has more than 1024 values, and then bytes that, read line by line as key, tab and decimal number, are the count of all keys read |
| ReduceRun.SortExists | src/worker_reduce.c:111-115 | such a sort exists |
| ReduceRun.CountExists | src/worker_reduce.c:185-203 | every bag of keys has a count |
| ReduceRun.ReadsPartition | src/worker_reduce.c:165-174 | on published partitions the keys read are the kept tokens of the partition over all splits |
| GroupWalk.Walk | src/worker_reduce.c:185-203 | gives up if and only if some key exceeds the limit; otherwise each distinct key once, strictly increasing, with its number of occurrences |
| GroupWalk.CountUnique | src/worker_reduce.c:185-203 | a bag of keys has one such list |
| GroupWalk.KeysPermutation | src/worker_reduce.c:111-115 | the bag of keys does not depend on the order the sort leaves |
| GroupWalk.RenderInjective | src/worker_reduce.c:133-138 | output bytes determine keys and counts |
| GroupWalk.ReadRendered | src/worker_reduce.c:133-138 | reading the lines of the output back as key, tab and decimal number gives the entries |
| GroupWalk.DigitsSpell | src/worker_reduce.c:137 | the digits of a count spell it in decimal, most significant first, without a leading zero |
| GroupWalk.BelowIsStrcmp | src/worker_reduce.c:111-115 | one key is below another if and only if it is a proper prefix of it or has the smaller byte where they first differ |
| WordCount.PartitionCount | src/worker_map.c:74-78 | the count of one partition is the whole count restricted to its words |
| WordCount.BagDetermined | src/worker_map.c:74-78 | the R lists determine the whole bag |
| WordCount.CountsTheWordsIff | src/worker_map.c:18-43 | what the job counts is the words of all splits if and only if every split is countable |
| WordCount.OrdinaryTextCounts | src/worker_map.c:14 | no NUL, lines that fit and words of at most 8190 bytes suffice |
| WordCount.FullBufferWordIsLost | src/worker_reduce.c:83-94 | every word of 8191 bytes vanishes from the count |
| Framing.FramesUnique | src/server.c:154-183 | a byte string splits in one way only into whole messages and a remainder |
| Framing.Client.ProcessBuffer | src/server.c:154-183 | hands over whole messages in order until none is left, an illegal length or a refusal; received bytes are the delivered messages and the rest; replies are queued in order |
| Framing.Client.OnRead | src/server.c:211-236 | for any chunk the same, and afterwards the read buffer has room; end of file or an error closes the connection, clears its slot and delivers, accepts and sends nothing; a read that would block changes nothing |
| Framing.Client.ReadAll | src/server.c:211-236 | for every list of payloads and every way of cutting their bytes into reads, the handler gets those payloads in order, all of them unless one is refused; a refusal is the handler's or for lack of room, and there is none when every answer goes out whole |
| Framing.Client.QueueWrite | src/server.c:100-143 | sent bytes and pending bytes are together all accepted bytes; accepted if and only if it fits with what is pending; a refusal loses nothing; the event loop is armed exactly while bytes are pending |
| Framing.Client.SendFramed | src/server.c:145-152 | a legal message is refused only while more than half of the buffer is pending |
| Layout.FrameLayout | src/server.c:145-152 | a frame is its payload behind its length in 4 bytes, most significant first |
| Framing.Client.OnWrite | src/server.c:187-209 | sends the next pending bytes in order; the parse after draining never delivers anything |
| Framing.ReadExact | src/util.c:21-36 | fills the buffer from any cutting of the input, short only at its end |
| Framing.WriteAll | src/util.c:38-50 | all bytes go out, whatever each write takes |
| Framing.RecvFramed | src/worker.c:48-62 | receives the first message, or fails exactly when none that fits is there |
| Framing.SentIsReceived | src/worker.c:32-46 | a sent frame is received as its payload |
| Rpc.DecodeEncode | src/rpc.c:195-255 | decoding an encoded message returns it if and only if its path is under 1024 bytes |
| Rpc.EncodeDecode | src/rpc.c:195-255 | an accepted body re-encodes to the same bytes |
| Rpc.KnownKinds | src/rpc.c:84-92 | a kind byte is recognised if and only if some message has that kind |
| Layout.MessageLayout | src/rpc.c:96-189 | kind number, offsets and values of the fields of every message |
| Rpc.EncodeFits | src/rpc.c:105-180 | every sendable message fits MSG_MAX |
| Rpc.Writer.Put | src/rpc.c:10-43 | a bounded write advances and writes, or does neither |
| Rpc.EncodeEmpty | src/rpc.c:96-103 | writes the kind byte, or fails for lack of room |
| Rpc.EncodeTaskMap | src/rpc.c:105-126 | succeeds exactly when the path is short enough and the message fits, and then the buffer holds its encoding |
| Rpc.EncodeTaskReduce | src/rpc.c:128-143 | succeeds exactly when it fits, and then the buffer holds the encoding |
| Rpc.EncodeWait | src/rpc.c:145-155 | the same for a wait reply |
| Rpc.EncodeTaskDone | src/rpc.c:166-180 | the same for a report |
| Rpc.DecodeTaskMap | src/rpc.c:195-215 | the cursor reads accept exactly the well-formed bodies |
| Rpc.DecodeTaskReduce | src/rpc.c:217-230 | the same for a reduce assignment |
| Rpc.DecodeWait | src/rpc.c:232-240 | the same for a wait reply |
| Rpc.DecodeTaskDone | src/rpc.c:242-255 | the same for a report |

## Left out

- Coordinator.Master.HandleTaskDone: when the C code would index outside its arrays, the model only says so (`outside`) and nothing about what happens then, because the C standard leaves it undefined. This also covers a report of attempt 0 for a slot that was never assigned, which no modelled worker sends.
- Guarantees.CanFinish: speaks of the master alone, where the result of a report is free; `Finishing.FinishesIffWithinLimit` is the statement about the system.
- Completion.CompletesIffNoOrphan: likewise of the master alone; `Lifetime.FinishesHereIff` is the statement about the system.
- Wire.ReplyArrives: asks for a task timeout below 2^32 ms; the configuration admits 100 to 600000 (src/config.c:17).
- Coordinator.Master.LoadLog: states nothing about the tables when the file is refused, because the master then exits.
- AofWriter.WriteJob: an overrun is named and its effect on memory is not modelled; `AofWriter.InitLog` shows that the computed buffer size never leads to one.
- Aof.CutFile: an empty or missing file is not a refused one but a first start (src/aof.c:331-333), which is `AofWriter.InitLog`.
- Scheduler.TaskDoneKeepsInv: a reply that cannot be queued is not modelled in the handlers (src/master.c:293-299); `Framing.Client` covers when that happens.
- Files.ActOk: worker processes are modelled as steps on values, so that they can interleave; the loops themselves are `MapWorker.TokenizeFile` and `ReduceRun.Reduce`. Record lines reach a temporary file one token at a time, which is finer than the C library's buffering.
- ReduceRun.Reduce: the sort is a parameter, any key-ordered permutation; the body of `qsort` is not modelled.
- Acceptance.JobDamageDetected: damage that makes the counts or a path length point to another end of the job header is not claimed to be detected, because the checksum is then looked for elsewhere.
- Aof.DamageDetected: larger damage is not claimed to be detected, because a CRC does not detect all of it.
- Event loop, sockets, accept, signals and shutdown.
- Hard write errors while queueing (src/server.c:122-127) and the count of clients: removal can run twice on that path.
- Client idle timeouts (src/server.c:298-318): they run from the same disabled call as the sweep, and would be disconnects.
- Memory allocation failure, and job headers whose sizes overflow the reader's buffer: only the functional result of the reader is modelled.
- fsync and clocks: a flush is atomic with its append, time is a parameter.
- Scanning the input directory, configuration, logging.
- Records of an unknown kind are skipped by the loader as in the code, and no writer produces them.
- The unused `doc_name` and ATTEMPT_DISCONNECT.
