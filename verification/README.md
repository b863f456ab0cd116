# Verification of the private data availability proxy

The proxy encrypts the blobs of `blob.Submit` calls before they reach a Celestia node,
together with a zero-knowledge proof that the ciphertext is an encryption of data with
a committed hash, and decrypts what `blob.Get` and `blob.GetAll` return. Proving takes
long, so a submit call is answered "call back" until the proof of each blob is in a
database.

The project models and proves:

- the **proof-job engine**: the queue tree, the finished tree, the worker's channel, the
  spawned tasks and the client calls (`Engine`), at two granularities. In the *fine*
  machine (`Fine`) every tree access, transaction and send is a step, as on a runtime
  with several threads. In the *request-atomic* machine (`Atomic`) one call of
  `get_verifiable_encryption` is a step; it contains no suspension point, so a
  runtime with one thread never splits it. Every atomic step is proved to be a run of the
  fine machine, which carries fine results over. The class `Runner.PdaRunner` holds the
  mutable state and its methods refine the atomic steps.
- the **verifiable-encryption pipeline**: ChaCha20 of RFC 8439 written out (`ChaChaBlock`,
  `ChaCha`) and checked against its published values (`ChaChaVectors`), the proven program and its output layout (`Zkvm`), and the two handlers (`Proxy`).
- the **start-up loop** and the key format it reads (`Recovery`, `Bincode`), and the
  three-level setup cache (`SetupCache`).

`dafny verify dfyconfig.toml` checks the whole project.

## Main results

| result | granularity | member |
|---|---|---|
| the trees refine one map from keys to stages of a job's life | request-atomic | `Lifecycle.RunRefines` |
| a finished proof or final failure is permanent and answers every later request | request-atomic, crashes included | `Lifecycle.Permanence` |
| a proof under a key is a proof about data whose hash the key encodes | fine, crashes included | `Content.ContentAddressing` |
| exactly one driver for each queued key, none for others | request-atomic, healthy runs | `UniqueDriver.WellAlways` |
| every queued key of a serving process is driven | fine, crashes, stops and restarts included, no abandoned call | `Healing.DrivenAlways` |
| all work drains, with a bound computed from the state, and every overlap of the trees heals | fine | `Drain.Drains`, `Drain.DrainsFromStart` |
| with several threads a final entry can be lost exactly from the states in which something is about to bring its key back to work | fine, crashes included | `Exposure.FinalEntryLostIff` |
| with several threads a key is driven twice exactly if it is started while driven | fine, crashes included | `Exposure.OneDriverIff` |
| proving attempts are bounded by one plus the "Retrying!" answers | request-atomic, crashes included | `Accounting.AttemptsBounded` |
| with several threads that bound can be overrun exactly if the attempts made and to come exceed it, which only late starts of a key bring about | fine, crashes included | `FineAccounting.OverrunIff`, `FineAccounting.PaidIff`, `LateStarts.LateStartIff` |
| a key that loses its driver is frozen, and exactly when that happens | request-atomic, crashes included | `Accounting.FrozenForever`, `Accounting.LosesDriverIff` |
| with several threads, exactly which steps leave a queued key undriven, and exactly when it stays so for good | fine, crashes included | `Frozen.LeftIff`, `Frozen.FrozenIff` |
| no accepted key is dropped from both trees | fine, crashes included | `Fine.Conservation` |
| a client that calls back is forwarded after at most as many unsuccessful calls as there were unfinished anchors and failures | fine, healthy runs, any calls of any clients interleaved | `Threads.TurnsConverge`, `Threads.ServedAfterTurns` |
| the same for undisturbed calls, and that such rounds happen | healthy fine runs between the calls | `CallBack.Converges`, `CallBack.DrainEndsRound`, `CallBack.ForwardedEventually` |
| which jobs a stop message makes the engine lose for good by its own steps, exactly | fine, restarts included | `Shutdown.LostIff`, `Shutdown.AbandonsWork` |
| what goes upstream for a submit call, or why nothing does, and what a retrieved response becomes, read off trees, proofs and bytes | every state, list and response | `Proxy.InboundHandler`, `Proxy.OutboundHandler` |
| what is submitted is what is retrieved | both, crashes included | `RoundTrip.SubmitThenGetAll`, `RoundTrip.FineRoundTrip` |

A *healthy* run has no abandoned prover call, no crash and no stop message; network
errors are allowed.

## What the code does not do

Where comments, logs or documentation and the code disagree, the model follows the code.

- The start-up loop (service/src/main.rs:157-158) decodes tree keys as `Job`s, but they
  are encoded `Anchor`s. The decode fails for every key and is unwrapped, so a process
  that ends while anything is queued never serves again:
  `Recovery.OnlyEmptyQueueRestarts`, `Fine.ExitWithWorkIsFinal`. The loop would
  also skip jobs being requested: `Recovery.SentIff`, `Recovery.RequestingIsNeverSent`.
- The log at service/src/internal/runner.rs:661 says existing jobs are finished at shutdown.
  The process exits when the worker reads the stop message, with all tasks. With a stop
  message under way its own steps can lose a job for good, without one they cannot:
  `Shutdown.LostIff`, `Shutdown.AbandonsWork`.
- The comments at service/src/internal/runner.rs:252, 267 and 285 say a failed job is
  finalized. It is not when the error is no network error: `Accounting.LosesDriverIff`,
  `Frozen.LeftIff`.
- A job that fails locally with a retryable network error is retried on the network:
  `Lifecycle.LocalFailureRetriesRemotely`.
- The log at service/src/main.rs:106-109 calls a timeout a permanent failure; it is stored as
  retryable (service/src/internal/runner.rs:424-433).
- Permanence, the unique driver and the work accounting need request-atomic steps. With
  several threads a finished proof can be replaced, at the cost of a second proving attempt
  nobody asked for, and a key can be driven twice: `Races.FinishedProofReplaced`,
  `Races.TwoDrivers`. Exactly from which states an entry can be lost:
  `Exposure.FinalEntryLostIff`; exactly which steps add a second driver, and which runs:
  `Exposure.SecondDriverIff`, `Exposure.OneDriverIff`. An entry that is final at a moment
  without calls in progress, reached by request-atomic steps, is safe whatever comes
  later: `Exposure.AtRestNoRisk`. A step upsets the account exactly if it is a late start
  (`FineAccounting.PaidIff`), and a run leads over the bound, without any further start,
  exactly if the attempts it has made and has to come exceed it
  (`FineAccounting.OverrunIff`); after the first start that follows a careful run, exactly
  if that start is late (`LateStarts.LateStartIff`).
- The outbound handler does not compare the key a proof was made under:
  `RoundTrip.OtherKeyOpensIff`.

## Assumptions

- SHA-256 is any function to 32 bytes. The round trip assumes that no two data ever
  submitted collide, nothing more.
- Honest oracles, only where `Honest` is named: a local prover proves its input, the
  network proves the input submitted under the id it waits for and issues no id twice,
  jobs carry the hash of their data. All other engine results hold for any prover.
- `ENCRYPTION_KEY` and `SP1_PROVER` are constants of a run.
- The codec of a proof, the commitment of a blob and proof verification are function values.

## Model

| member | source | states |
|---|---|---|
| `Bincode.VecRoundTrip` | service/src/internal/runner.rs:90 | decoding reads back exactly what encoding wrote, whatever bytes follow |
| `Bincode.AnchorInjective` | service/src/internal/runner.rs:90-91 | two anchors have one tree key exactly if they are equal |
| `Bincode.DecodesAsJobIff` | service/src/main.rs:158 | a byte string decodes as a job exactly if an encoded job is a prefix of it |
| `Bincode.AnchorNeverDecodesAsJob` | service/src/main.rs:158 | no encoded anchor decodes as a job |
| `Bincode.DigestKey` | service/src/internal/runner.rs:90 | the tree key of a 32-byte hash is its length in eight bytes, least significant first, and the hash |
| `Recovery.RestartUnfinished` | service/src/main.rs:157-172 | the loop ends exactly if all keys decode, and sends the local and waiting jobs in order |
| `Recovery.OnlyEmptyQueueRestarts` | service/src/main.rs:156-172 | with the keys the service writes, the loop panics on every non-empty queue and sends nothing |
| `Recovery.SentIff` | service/src/main.rs:161-170 | over any list whose keys decode, a job is sent exactly if an entry naming it is local or waiting |
| `Recovery.SentCount` | service/src/main.rs:157-172 | every entry's job is sent, in order, exactly if every status is local or waiting |
| `Recovery.RequestingIsNeverSent` | service/src/main.rs:161-170 | over any queue whose keys decode, a job is sent exactly if an entry not being requested names it, and all are exactly if no entry is being requested |
| `ChaChaVectors.ZeroKeyStream` | zkVM/common/src/lib.rs:30-33 | the first 128 key stream bytes of the zero key and nonce are the first two block vectors of RFC 8439, appendix A.1 |
| `ChaChaVectors.CountKeyStream` | zkVM/common/src/lib.rs:30-33 | bytes 64 to 127 of the key stream of key 00 to 1f and that section's nonce are the block of RFC 8439, section 2.3.2 |
| `ChaChaBlock.RoundsUndone` | zkVM/common/src/lib.rs:31 | an inverse written on its own undoes the twenty rounds on every state |
| `ChaChaBlock.RoundsInjective` | zkVM/common/src/lib.rs:31 | states that differ in key, nonce or counter are mixed to states that differ |
| `ChaCha.Chacha` | zkVM/common/src/lib.rs:30-33 | the buffer is replaced by its encryption, byte by byte XORed with the key stream |
| `ChaCha.ApplyKeystream` | zkVM/common/src/lib.rs:32 | whole 64-byte blocks and a partial last block give the byte-wise XOR for every buffer |
| `ChaCha.Involution` | zkVM/sp1/src/bin/cli.rs:93-98 | applying the cipher twice under one key and nonce is the identity |
| `ChaCha.PrefixCommutes` | zkVM/common/src/lib.rs:30-33 | prefixes are encrypted to prefixes |
| `ChaCha.DecryptsUnderIff` | zkVM/common/src/lib.rs:30-33 | another key decrypts to the data exactly if both key streams agree on its length |
| `Zkvm.Execute` | zkVM/sp1/program-chacha/src/main.rs:8-43 | a run commits exactly if three vectors are read, the first of 32 and the second of 12 bytes; the output is the key's hash in bytes 0 to 31, the nonce in 32 to 43, the plaintext's hash in 44 to 75, and the ciphertext; otherwise it panics |
| `Zkvm.FromBytes` | zkVM/common/src/lib.rs:50-72 | fails exactly below 76 bytes; otherwise the fields are bytes 0 to 31, 32 to 43, 44 to 75 and the rest, and re-emit the input |
| `Zkvm.Parse` | zkVM/common/src/lib.rs:50-72 | the same, as a function |
| `Zkvm.ParseEmit` | zkVM/sp1/program-chacha/src/main.rs:16-42 | parsing the four commits returns exactly their fields |
| `Zkvm.RunDecrypts` | zkVM/sp1/src/bin/cli.rs:81-103 | every run on 32- and 12-byte inputs commits an output that parses to key hash, nonce and plaintext hash and decrypts to the input |
| `Fine.InvAlways` | service/src/internal/job.rs:49-65 | in every fine run the queue holds only statuses in progress, the finished tree only proofs, final failures and failures retried as requesting |
| `Fine.NoInvalidState` | service/src/internal/runner.rs:133-161 | no reachable call reports an invalid tree and no task finds an invalid status |
| `Fine.Conservation` | service/src/internal/runner.rs:182-188 | no step of a fine run, crash or restart included, drops an accepted key from both trees |
| `Fine.BootIff` | service/src/main.rs:156-172 | a restart serves exactly if the queue is empty, and changes nothing otherwise |
| `Fine.ExitWithWorkIsFinal` | service/src/main.rs:157-158 | once the process is gone with anything queued, no run changes the state again |
| `Content.ContentAlways` | service/src/internal/runner.rs:257-281 | every message, task, call, request id and finished proof belongs to the key it is kept under, in every honest fine run |
| `Content.ProofMeans` | zkVM/sp1/program-chacha/src/main.rs:16-42 | a proof for a key parses to the key's anchor as plaintext hash, the service's key hash, and a ciphertext of data with that hash |
| `Content.ContentAddressing` | service/src/main.rs:319-325 | whenever a key holds a proof, the plaintext hash read from it is the anchor the key encodes and its ciphertext encrypts submitted data with that hash |
| `Healing.DrivenAlways` | service/src/internal/runner.rs:182-216 | in every fine run without abandoned prover call, crashes, stops and restarts included, each queued key of a serving process has a call about to send, a message or a task |
| `Healing.HealedAlways` | service/src/internal/runner.rs:182-216 | in every healthy fine run the process serves, is not told to stop, and each queued key is driven |
| `Healing.OverlapIff` | service/src/internal/runner.rs:182-188 | a step brings a key into both trees exactly if it is the plain insert of a call whose key is finished |
| `Healing.TransactionHeals` | service/src/internal/runner.rs:594-636 | a task's or a retrying call's transaction leaves its key in exactly one tree, and nothing else ends an overlap |
| `Drain.PotentialFalls` | service/src/internal/runner.rs:207-289 | every step of calls, worker and tasks lowers a rank, although a task re-sends its job |
| `Drain.StuckIffIdle` | service/src/internal/runner.rs:207-217 | without further input the engine stops exactly when no call, message or task is left |
| `Drain.Drains` | service/src/internal/runner.rs:199-217 | from any state of a serving process with all queued keys driven, the engine's own steps are bounded in number and end with every call answered, channel and queue empty, every accepted key finished, and no overlap of the trees |
| `Drain.DrainsFromStart` | service/src/internal/runner.rs:199-217 | the same, bound included, after every fine run from an empty database without abandoned prover call, crashes and restarts included |
| `Races.FinishedProofReplaced` | service/src/internal/runner.rs:182-188 | a healthy fine run of exactly two calls that replaces any finished proof by any other, with two proving attempts for the key and no "Retrying!" answer |
| `Races.TwoDrivers` | service/src/internal/runner.rs:182-192 | a healthy fine run after which one key has two drivers |
| `Exposure.SecondDriverIff` | service/src/internal/runner.rs:182-192 | a fine step gives a driven key a second driver exactly if it is the insert or the retry transaction of a call for it |
| `Exposure.OneDriverIff` | service/src/internal/runner.rs:182-194 | in a fine run a key is never driven twice exactly if no such step happens while it is driven |
| `Exposure.SafeForever` | service/src/internal/runner.rs:95-195 | a final entry at no risk is there, unchanged, and at no risk, after every fine run, crashes and restarts included |
| `Exposure.FinalEntryLostIff` | service/src/internal/runner.rs:182-188 | some fine run changes a final entry exactly if it is at risk: a task is proving its key, a call is about to move it, it is queued and will be read, or a call will insert it and something will read that |
| `Exposure.AtRestNoRisk` | service/src/internal/runner.rs:95-113 | a final entry of a request-atomic state is at no risk, so every fine run keeps it |
| `Atomic.CallEnds` | service/src/internal/runner.rs:86-195 | an undisturbed call, access by access, ends in the state and with the answer of the single step |
| `Atomic.RunIsFineRun` | service/src/internal/runner.rs:86-195 | every request-atomic run is a fine run |
| `UniqueDriver.SoloAlways` | service/src/internal/runner.rs:211-292 | in every request-atomic run, crashes included, the trees are disjoint, a key has at most one driver and none unless queued, and a driving task agrees with the queue |
| `UniqueDriver.WellAlways` | service/src/internal/runner.rs:182-292 | in every healthy request-atomic run each queued key has exactly one driver and every other key none |
| `UniqueDriver.ProveFindsEntry` | service/src/internal/runner.rs:231-235 | every job on its way to a task, and every task, has its key in the queue |
| `Lifecycle.StepRefines` | service/src/internal/runner.rs:86-294 | every request-atomic step is an allowed move of the lifecycle map, or none |
| `Lifecycle.AnswerRefines` | service/src/internal/runner.rs:94-194 | looking into the two trees in turn answers as one look into the lifecycle |
| `Lifecycle.RunRefines` | service/src/internal/runner.rs:86-294 | every request-atomic run is a run of the lifecycle |
| `Lifecycle.Permanence` | service/src/internal/runner.rs:95-113 | a proof or final failure stays, across crashes, and answers every later request |
| `Lifecycle.LocalOnlyFirst` | service/src/internal/runner.rs:431-441 | a key that has left the local stage never returns to it |
| `Lifecycle.LocalFailureRetriesRemotely` | service/src/internal/runner.rs:488-490 | a retryable failure of a local job is retried as a remote request |
| `Accounting.LosesDriverIff` | service/src/internal/runner.rs:488-494 | a queued key loses its driver unfinalized exactly by an abandoned prover call or the end of the process |
| `Accounting.FrozenForever` | service/src/internal/runner.rs:142-153 | a queued key without driver keeps its status in every later run and every request for it answers "pending" |
| `Accounting.AttemptsBounded` | service/src/internal/runner.rs:450-504 | in every run a key costs at most one proving attempt plus one for each "Retrying!" answer |
| `Frozen.LeftIff` | service/src/internal/runner.rs:488-494 | a fine step leaves a driven key queued and undriven exactly if it ends the process or abandons the prover call of the only driver |
| `Frozen.FrozenIff` | service/src/internal/runner.rs:142-153 | an undriven queued key keeps its status and stays undriven in every fine run exactly if the process is gone, or no call is at its insert or retry and no retryable failure lies beside the entry |
| `FineAccounting.PaidIff` | service/src/internal/runner.rs:182-192 | in any fine step the attempts made and to come are covered by acceptance and "Retrying!" answers exactly if the step is no late start: a start of a new key, or one that brings no reader of its own to an entry whose readers would start their attempts anyway |
| `FineAccounting.AttemptsBounded` | service/src/internal/runner.rs:182-194 | the bound of the request-atomic machine in every fine run without late start |
| `FineAccounting.SpendToCome` | service/src/internal/runner.rs:207-240 | the engine's own steps make all attempts that are to come, with no further start, answer or acceptance |
| `FineAccounting.OverrunIff` | service/src/internal/runner.rs:182-194 | after any fine run, a continuation without further start of the key overruns the bound exactly if the attempts made and to come, those cut off by a stop message apart, exceed it |
| `LateStarts.EvenRun` | service/src/internal/runner.rs:182-240 | in a careful fine run, which starts a key only undriven and inserts it only when new, attempts made and due, a stop message disregarded, equal acceptance and "Retrying!" answers, unless the process is gone with queued work |
| `LateStarts.LateStartIff` | service/src/internal/runner.rs:182-192 | after a careful fine run a start of the key can lead over the bound exactly if it is late; an insert with no stop message under way, exactly if its key was accepted before |
| `Runner.PdaRunner.GetVerifiableEncryption` | service/src/internal/runner.rs:86-195 | one request step: the new trees and channel, and the answer |
| `Runner.PdaRunner.FinalizeJob` | service/src/internal/runner.rs:594-607 | moves the key to the finished tree |
| `Runner.PdaRunner.SendJobWithNewStatus` | service/src/internal/runner.rs:612-636 | moves the key to the queue and sends the job |
| `Runner.PdaRunner.HandleZkClientError` | service/src/internal/runner.rs:403-448 | finalizes with the failure of the error's class and returns that error |
| `Runner.PdaRunner.ProveBegin` | service/src/internal/runner.rs:228-290 | the task goes on with the status it reads, or ends |
| `Runner.PdaRunner.ProveFinish` | service/src/internal/runner.rs:240-293 | the task's step after its prover call |
| `Runner.PdaRunner.JobWorker` | service/src/internal/runner.rs:206-225 | receives until the channel is empty or a stop message ends the process |
| `Runner.PdaRunner.Shutdown` | service/src/internal/runner.rs:660-663 | appends the stop message |
| `Runner.PdaRunner.Restart` | service/src/main.rs:156-172 | the start-up step, through the recovery loop |
| `Runner.ReceiveAllSpawns` | service/src/internal/runner.rs:211-217 | without stop message the worker's loop makes one task of every message, in order |
| `Runner.ReceiveAllIsRun` | service/src/internal/runner.rs:206-225 | the worker's loop is a fine run of receive steps |
| `Runner.ReceiveAllIsAtomicRun` | service/src/internal/runner.rs:206-225 | and a request-atomic one |
| `Shutdown.LostIff` | service/src/internal/runner.rs:219-225 | by its own steps, without new call, crash or abandoned prover call, the engine can lose a job for good, over all restarts, exactly if a stop message is under way and the key is queued or a call or task at hand could queue it |
| `Shutdown.AbandonsWork` | service/src/internal/runner.rs:219-225 | so a stop message makes it lose exactly those jobs, without calls in progress exactly the queued ones, and without one it loses none |
| `Reachable.ReachableIsSound` | service/src/internal/runner.rs:86-294 | every state an honest request-atomic run reaches has disjoint trees, typed statuses, at most one driver per key and content addressing |
| `Proxy.SubmitPromised` | service/src/main.rs:315-347 | a submit call's list goes out exactly if every blob's hash holds a finished proof that serialises and makes a blob, each as namespace, serialised proof and their commitment; otherwise it stops at the first other blob, with the outcome its tree entry gives |
| `Proxy.SubmitLoop` | service/src/main.rs:313-347 | the blob loop does one request per blob up to the first that has no proof, and nothing else |
| `Proxy.InboundHandler` | service/src/main.rs:284-372 | a submit call is forwarded with its list replaced as above and the rest untouched, called back or failed exactly as its first blob without proof says; every other call is forwarded unchanged and leaves the runner alone; malformed params are errors |
| `Proxy.VerifyDecryptBlob` | service/src/main.rs:458-470 | a blob opens exactly if its proof decodes, verifies and has 76 public bytes; its data becomes the bytes after the header XORed with the key stream of the header's nonce, the rest is kept |
| `Proxy.OpenedAll` | service/src/main.rs:416-430 | all elements open, in order, or none is returned |
| `Proxy.OutboundHandler` | service/src/main.rs:382-456 | unauthorized and unparsable responses; no result, or under a retrieval a result that does not open throughout, passes the original bytes on; another method's result is kept; otherwise every element is opened, in order |
| `RoundTrip.ForwardedIff` | service/src/main.rs:315-350 | a submit call is forwarded exactly if every blob's data has a finished proof that makes a blob, with those blobs in order and no tree changed |
| `RoundTrip.SubmitThenGetAll` | service/src/main.rs:416-430 | what a forwarded call sent comes back from `blob.GetAll` under the same key as the submitted data, in order, with its namespaces |
| `RoundTrip.SubmitThenGet` | service/src/main.rs:409-414 | the same for `blob.Get` and each single blob |
| `RoundTrip.AnswerOpens` | service/src/main.rs:458-470 | at whatever moment of an honest fine run a call is given a proof, the blob made of it opens to the data of the call |
| `RoundTrip.FineRoundTrip` | service/src/main.rs:313-350 | proofs given at any moments of an honest fine run make a list that comes back as the submitted data, in order, with its namespaces |
| `RoundTrip.OtherKeyOpensIff` | service/src/main.rs:458-470 | a proof made under one key opens to its data under another exactly if the key streams agree |
| `CallBack.PendingIff` | service/src/main.rs:327-346 | a call is forwarded exactly if every blob is proven; with no blob refused for good it is otherwise called back, "pending" if none failed; and a call that is called back leaves a blob without proof in the queue |
| `CallBack.TouchesOneKey` | service/src/main.rs:344-346 | a submit call changes the trees at one key at most |
| `CallBack.RoundProgress` | service/src/main.rs:313-347 | a call that is called back and a healthy fine run to idleness, other clients' calls included, lose no proof of the list, and finish a blob of it or count a failure |
| `CallBack.Converges` | service/src/main.rs:313-347 | the calls that are called back are at most as many as the distinct unfinished anchors and the failed attempts of the list together; after that many the call is forwarded |
| `CallBack.DrainEndsRound` | service/src/internal/runner.rs:199-217 | after a call that is called back, every fine run of the engine's own steps is bounded and one that cannot go on honestly ends a round |
| `CallBack.SomeProver` | zkVM/sp1/program-chacha/src/main.rs:16-42 | an honest prover exists: what the program commits on each data |
| `CallBack.ForwardedEventually` | service/src/main.rs:313-347 | for every honest prover there are honest rounds without failure, at most as many as unfinished anchors, up to a forwarded call; they stay within the reachable states |
| `Threads.PutOffProves` | service/src/main.rs:327-346 | if in a healthy fine run to idleness a call for a blob is answered "pending" or "Retrying!", the blob had no proof before, and has one after unless proving a listed key failed |
| `Threads.TurnProgress` | service/src/main.rs:313-347 | a fine run to idleness in which the client is put off on a blob loses no proof, and finishes a blob of the list or counts a failure |
| `Threads.TurnsConverge` | service/src/main.rs:313-347 | the turns in which the client is put off are at most as many as the unfinished anchors and the failed attempts of the list, however its calls interleave with others |
| `Threads.ServedAfterTurns` | service/src/internal/runner.rs:95-113 | after as many turns as that every later call for a blob of the list, in any fine run, is given its proof |
| `SetupCache.ProofSetups.GetProofSetup` | service/src/internal/runner.rs:301-346 | the lookup through cell, tree and computation: a hit changes no tree and computes nothing, a miss computes once and stores, and every answer is left in the cell |
| `SetupCache.RestartFallsBack` | service/src/internal/runner.rs:308-317 | after a restart a lookup is answered from the tree, whatever the cell held and the client computes |
| `SetupCache.CacheAgrees` | service/src/internal/runner.rs:353-398 | over any lookups and restarts the levels agree with the computation, which runs once plus once per failed insert |
| `SetupCache.LookupAnswers` | service/src/internal/runner.rs:301-398 | every lookup answers the program's setup, except one whose insert failed on an empty tree |

## Left out

- `Runner.PdaRunner.ProveBegin`, `Runner.PdaRunner.ProveFinish`: the asynchronous `prove` is split at its prover call; the other suspension points have no effect on the trees.
- sled errors, flushing and the bytes of a stored status: trees are maps from keys to statuses, single accesses and the two-tree transaction are atomic and durable.
- Failures of `job_sender.send`: the receiver lives as long as the process.
- A missing or malformed environment variable in a request panics that connection before any write and is not modelled; in a task it is the outcome `Abandon`.
- The text of error messages: an error is the class of the prover client's error.
- ChaCha20's limit of 2^32 blocks: the crate panics beyond 256 GiB, the model's counter wraps.
- The order in which a submit call asks for its blobs, in `Threads`: a turn records that the client was put off on one of them, whichever calls it made before. `CallBack` has the order.
- SP1 proving and verification, the prover network, Celestia, SHA-256: oracles, see the assumptions.
- HTTP, TLS, the authorization header, JSON text and headers; connections in `service_fn`.
- Concurrent initialisation of the setup cell: lookups are one at a time, as the cell's own lock makes them. Undecodable stored setups are not modelled.
- Uniqueness of nonces: they are arbitrary 12-byte values.
- service/src/rpc, the command line driver, build scripts and container files.
