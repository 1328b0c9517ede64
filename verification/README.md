# Verified models of the DPU runtime and its resumable benchmarks

The repository runs programs on PIM memory (ranks of DPUs behind control interfaces), can preempt
them, and lets the host finish their work. This project models the parts of it whose correctness is
not evident from one function, and proves what they are there for. The hardware is an environment
that may do anything allowed by assumptions stated as predicates; the code is the algorithm.

| file | what it models |
|---|---|
| `ControlInterface.dfy` | the command protocol with up to eight control interfaces (CIs): colours that tell a fresh answer from the previous one, polling, fault decoding, reset, learning the colours |
| `MramAccess.dfy` | MRAM transfers through a program run on the DPU: chunks, saving and restoring IRAM and WRAM, unaligned ranges |
| `BitConfig.dfy` | finding, from one received word, how a wire permutes bits, and undoing it |
| `Checkpoint.dfy` | writing and reading a serialised DPU context |
| `RunContext.dfy` | which DPUs the host believes to be running, and the gates that depend on it |
| `DrainPipeline.dfy` | stopping a DPU's threads one by one and recording where each was |
| `KeccakFips.dfy`, `Keccakf.dfy` | sections 3.2, 3.3 and 3.4 of FIPS 202, and the unrolled permutation of the benchmark |
| `Scramble.dfy`, `KeyRanges.dfy`, `ScrambleAnswer.dfy` | the preemptible scrambling loop, its completion on the host, the division of keys among tasklets, and the scrambles of two keys round by round |
| `Checksum.dfy` | the checksum over every n-th block, and its completion on the host |
| `HashTable.dfy` | an open-addressing table with dummies in place of deleted items |
| `RankRegistry.dfy` | the growing list of allocated ranks |
| `Bits.dfy`, `Bytes.dfy`, `Wrappers.dfy` | bit masks of one byte; little-endian words and overwriting part of a sequence; optional values |

Where the source loops or updates state, methods follow it, and are proved to compute a function of the
old state; a long C function is split into several methods. The properties are lemmas about those
functions. `dafny verify dfyconfig.toml` checks all of it.

## What is assumed of the environment

- Control interfaces (`ControlInterface.Lawful`, `Quiet`, `ClearedAnswers`, after the comment at
  library/src/backends/ufi/src/ufi_ci.c:520-531): answers to commands come in order after any delay,
  with a colour byte at most three bits off, which flips with every command that is not empty; a reset
  leaves the colour that the next answer will not have; a CI nothing was sent to shows its last answer,
  or the NOP it was given. According to line 523 a NOP does not flip the colour, while the host counts it
  like any other command, so `Lawful` is about commands that are not NOPs. Polls that fail, time out or
  deliver anything else are allowed where a lemma does not name one of these predicates.
- `CI_EMPTY`, `CI_NOP` and `CI_IDENTITY` are as in library/src/backends/ufi/include/ufi/ufi_ci_commands.h:13-30,
  `TIMEOUT_COLOR` as in library/src/backends/ufi/include/ufi/ufi_ci.h:15, and the number of CIs as in
  library/src/backends/api/include/api/dpu_types.h:22.
- The DPU program of MRAM transfers is not part of the sources. `MramAccess.Dpu.Run` takes it to move,
  each time it is started or resumed, as many bytes as the context says between WRAM from word 8 on and
  MRAM at its cursor, and to advance the cursor. Every access of the host to a DPU may fail. A read
  at an unaligned address, which the worker excludes, delivers any eight bytes (`MramAccess.ReadMisaligned`).
- DPUs of a rank (`RunContext.LawfulEvent`): they stop when they like and start only when booted, a boot
  that fails starts none, and a poll that succeeds reads those that execute as running and not in fault.
- `drain_pipeline` (`DrainPipeline.Drain`): the run registers may show anything, in any number of rounds.
- Preemption (`Scramble`, `Checksum`): a tasklet stops after completing the stores of its checkpoint,
  in any iteration; its record is then read by the host.
- SIZE and hashFunc of the hash table are parameters; non-negative keys hash to cell numbers.

Where results differ from what one might expect of the code:

- A colour byte exactly four bits off marks its CI as done and reports "not ready"; the next poll
  skips that CI. So a command can succeed on an answer that was four bits off
  (library/src/backends/ufi/src/ufi_ci.c:462, 490-495): `ControlInterface.FourBitsOff` is such a run, and
  `ControlInterface.AcceptedDistance` says exactly when a packet is taken, and when a stale one is.
- The host of the scramble benchmark runs the saved state of the key in flight once for each key that
  remained, and these cancel in pairs. `Scramble.ResumedTotal` gives the total for every checkpoint by the
  parity of that number, `KeyRanges.PreemptedTotal` that of a whole run. It is the right one when each
  tasklet was in its last key (`KeyRanges.ResumedFinalSum`), and for one tasklet exactly when the keys that
  were not run cancel (`Scramble.ResumeRestoresSum`); `ScrambleAnswer.ResumeFails` is a run of two keys
  whose total it is not.
- A checksum record whose sum is one block ahead of its index is completed wrongly unless that block
  adds nothing (`Checksum.TornIsWrong`; `TornExample` is one).
- A file that states 65536 instructions or more is accepted, but its context has a 16-bit field for
  them; serialising the context gives the file back exactly when the number fits, and the size function
  gives its length exactly when the number fits modulo 2^29, as its size in bytes wraps
  (`Checkpoint.Reserialised`; `ManyInstructions` and `WrappedInstructions` are files for which they do not).
- The tail block that an unaligned MRAM write fetches starts at an aligned address exactly when the write
  does (`MramAccess.TailFetchAligned`). With both ends unaligned the write preserves the bytes around its
  range if and only if these happen to be what that fetch delivers (`MramAccess.MergedIsExact`).
- `insertItem` does not look for its key: the table stays a map exactly when the key was absent
  (`HashTable.InsertAgrees`; `InsertExample` is the other case).
- `isSame` is true when the repetitions differ; either way the first repetition's sum is taken
  (`Checksum.IsSame`, `Checksum.Agreed`).

## Model

| member | source | states |
|---|---|---|
| `ControlInterface.CommandIsAnswered` | library/src/backends/ufi/src/ufi_ci.c:267-333 | whatever the outcome, every CI that was accepted was accepted on its answer to this command, never on the previous one; success means that every addressed CI was, that the data kept were read after all the answers, and that host and CIs agree again |
| `ControlInterface.RunsAreFresh` | library/src/backends/ufi/src/ufi_ci.c:267-333 | over every run of commands, resets and colour learning, failing calls included: each command sent while host and CIs agree accepts answers to it only and, when it succeeds, keeps data read after all of them; agreement lasts until a call fails and is back after the next successful learning or reset of all CIs |
| `ControlInterface.AcceptedAreAnswers` | library/src/backends/ufi/src/ufi_ci.c:424-501 | for any outcome, each accepted packet was read when its CI had answered everything sent to it, and the recorded distance, which decides the fault bits, is that packet's |
| `ControlInterface.ReadyAreAnswers` | library/src/backends/ufi/src/ufi_ci.c:435-462 | in a lawful script every packet of an addressed CI that passes the inspection, in any read, answers this command |
| `ControlInterface.FreshHostAgrees` | library/src/backends/ufi/src/ufi_ci.c:245-248 | a host with clear colour bits, as a reset leaves them, agrees with CIs that were sent nothing since their reset: where runs begin |
| `ControlInterface.FourBitsOff` | library/src/backends/ufi/src/ufi_ci.c:462-495 | beyond the noise bound: a CI that has answered nothing, with a colour byte four bits off, makes a command succeed at the second poll |
| `ControlInterface.CommandFaults` | library/src/backends/ufi/src/ufi_ci.c:267-333 | whatever the CIs reply: at most 101 polls, and one re-read when they end well on a chip other than v1.4; a CI gains its decode bit exactly when its accepted colour byte was 1 or 3 bits off, its collide bit exactly at 2 or 3, and each accepted packet is one some poll delivered |
| `ControlInterface.RunFaultsGrow` | library/src/backends/ufi/src/ufi_ci.c:424-501 | over any run, failures included, a CI's fault bits stay until that CI is reset |
| `ControlInterface.AcceptedDistance` | library/src/backends/ufi/src/ufi_ci.c:435-495 | a packet that passes the mask test is accepted exactly when its colour is at most 4 bits off, so a stale answer exactly when it is at least 4 bits off its own colour |
| `ControlInterface.ReadyIsFresh` | library/src/backends/ufi/src/ufi_ci.c:435-462 | with at most 3 wrong bits only the answer to the outstanding command is accepted |
| `ControlInterface.ScanKeeps` | library/src/backends/ufi/src/ufi_ci.c:435-500 | a scan never looks again at a CI that is done, and accepts a CI only on a packet that passes |
| `ControlInterface.ScanFaults` | library/src/backends/ufi/src/ufi_ci.c:464-495 | the fault bits after a scan are the old ones and those of the CIs it accepted, by their distances |
| `ControlInterface.MaskTest` | library/src/backends/ufi/src/ufi_ci.c:355-394 | the computed mask and expected value let through exactly packets with a clear command byte and a full valid byte and, when asked for, exactly the selected DPUs |
| `ControlInterface.Acceptance` | library/src/backends/ufi/src/ufi_ci.c:435-462 | a packet of an addressed CI is taken exactly when its command byte is clear, its valid byte full and, for a command that waits for its DPUs, its low bits those of the selected DPUs and no others, or else when it is a NOP; and its colour byte is at most four bits off |
| `ControlInterface.AcceptedAcknowledge` | library/src/backends/ufi/src/ufi_ci.c:267-333 | whatever the CIs reply and however the command ends, every accepted CI had such a packet in one of the reads, at the recorded distance |
| `ControlInterface.CommandSucceeds` | library/src/backends/ufi/src/ufi_ci.c:278-333 | a command succeeds when its reads work and by some poll, the 101st at the latest, every addressed CI acknowledges it there within three wrong bits |
| `ControlInterface.CommandFails` | library/src/backends/ufi/src/ufi_ci.c:278-326 | an internal error exactly for want of a target, before anything is sent; a driver error exactly when the commit or the last read failed; a timeout after exactly 101 polls |
| `ControlInterface.RereadsAfterAll` | library/src/backends/ufi/src/ufi_ci.c:318-326 | on chips other than v1.4 the data kept come from a read after the one that accepted the last CI |
| `ControlInterface.FaultsByDistance` | library/src/backends/ufi/src/ufi_ci.c:464-489 | a newly accepted CI gains its decode bit for one or three wrong bits, its collide bit for two or three |
| `ControlInterface.DistanceCounts` | library/src/backends/ufi/src/ufi_ci.c:449-467 | the distance of a colour byte is the number of its bits to change |
| `ControlInterface.PacketBytes` | library/src/backends/ufi/src/ufi_ci.c:448 | the command, colour, valid and low bytes of a packet are its bits 63-56, 55-48, 39-32 and 7-0 |
| `ControlInterface.SelectedBits` | library/src/backends/ufi/src/ufi_ci.c:82-108 | the mask of a slice selects the DPUs of its target: all, one, or those of its group |
| `ControlInterface.AllDpusBits` | library/src/backends/ufi/src/ufi_ci.c:82-108 | the mask of all DPUs has exactly the bits below their number |
| `ControlInterface.LearningSynchronises` | library/src/backends/ufi/src/ufi_ci.c:510-634 | from whatever colours the host had: after successful learning its colours are those the CIs answer with next, the dummy commands really sent included, and these went to exactly the CIs that held a NOP |
| `ControlInterface.DummyGoesToHolders` | library/src/backends/ufi/src/ufi_ci.c:574-593 | the dummy commands made from any read are the identity for the CIs that hold a NOP and nothing for the others, so that only the former are sent a command |
| `ControlInterface.LearningChangesNothing` | library/src/backends/ufi/src/ufi_ci.c:510-634 | on a host in step with CIs that hold no NOP, learning changes no colour bit, whether it succeeds or not |
| `ControlInterface.LearningSucceeds` | library/src/backends/ufi/src/ufi_ci.c:510-634 | learning succeeds when the CIs settle, and after a dummy command clear their command bytes, before read number 100000 of each wait, and the reads and the commit work |
| `ControlInterface.WaitsForValid` | library/src/backends/ufi/src/ufi_ci.c:534-564 | waiting ends at the first read in which every CI holds a NOP or has a clear command byte and a full valid byte, or with a timeout after exactly 100000 reads |
| `ControlInterface.WaitsForClear` | library/src/backends/ufi/src/ufi_ci.c:595-615 | the wait after the dummy command ends at the first read in which every command byte is clear, or with a timeout after exactly 100000 reads |
| `ControlInterface.ResetInStep` | library/src/backends/ufi/src/ufi_ci.c:213-265 | a successful reset starts the count of the reset CIs afresh whatever their colours were, and keeps the others in step |
| `ControlInterface.ResetBits` | library/src/backends/ufi/src/ufi_ci.c:213-249 | success exactly when the commit and all the reads work; it clears colour and fault bits of the CIs addressed and keeps those of the others; failure inverts the colours of the addressed CIs and changes nothing else |
| `ControlInterface.ResetGroups` | library/src/backends/ufi/src/ufi_ci.c:250-262 | success leaves every slice without a target, all DPUs in group 0 and none in the others |
| `ControlInterface.InvertedStep` | library/src/backends/ufi/src/ufi_ci.c:335-338 | inverting the colours of the addressed CIs keeps every host colour the parity of the commands sent |
| `ControlInterface.AddressedBits` | library/src/backends/ufi/src/ufi_ci.c:340-353 | the CI mask has exactly the bits of the CIs with a command that is not empty |
| `ControlInterface.Rank.Exec` | library/src/backends/ufi/src/ufi_ci.c:267-333 | the retry loop with its registers and flags is the specified polling; status, colours, fault bits and kept data |
| `ControlInterface.Rank.ComputeMasks` | library/src/backends/ufi/src/ufi_ci.c:355-394 | fails exactly when a selected mask is asked for and some addressed slice has no target; otherwise the masks, expected values, CI mask and done flags of the command |
| `ControlInterface.Rank.CommandsAreFinished` | library/src/backends/ufi/src/ufi_ci.c:424-501 | one pass over the CIs, with early exits, is the specified scan |
| `ControlInterface.Rank.ExecReset` | library/src/backends/ufi/src/ufi_ci.c:213-265 | failure of any of the reads leaves the inverted colours; success clears the colours and fault bits of the reset CIs and the groups of all slices |
| `ControlInterface.Rank.PollUntilSettled` | library/src/backends/ufi/src/ufi_ci.c:534-564 | the loop that waits for valid results, with its timeout and the NOPs seen on the way |
| `ControlInterface.Rank.PollUntilCleared` | library/src/backends/ufi/src/ufi_ci.c:595-615 | the loop that waits for cleared command bytes after the dummy command |
| `ControlInterface.Rank.DummyFrom` | library/src/backends/ufi/src/ufi_ci.c:574-591 | the loop replaces the packets read, in place, by the dummy commands |
| `ControlInterface.Rank.LearnColors` | library/src/backends/ufi/src/ufi_ci.c:510-634 | all paths of learning the colours, failing ones included, with the commands committed on each |
| `MramAccess.Access` | library/src/backends/api/src/dpu_memory.c:680-879 | with an enabled DPU the status is Ok unless an access of the host fails or the program faults; success moves exactly bytes [offset, offset+size) in order, the last transfer marked and no other, and leaves IRAM, WRAM and all other MRAM bytes as they were; failure changes no MRAM byte outside the range, nor the side that is read |
| `MramAccess.StatusTells` | library/src/backends/api/src/dpu_memory.c:786-790 | the status is Ok exactly when nothing went wrong, a driver error exactly when an access failed, an internal error exactly when the program faulted |
| `MramAccess.PatchedAt` | library/src/backends/api/src/dpu_memory.c:714-730 | instructions 11 and 19 become the DMA instructions of the direction, with lengths 255 and 0, and no other changes |
| `MramAccess.MoveChunks` | library/src/backends/api/src/dpu_memory.c:764-861 | at least one chunk; the moves start the program once and then resume it, each begins where the one before it ended, together they are the range, and the marker is set for the final one only |
| `MramAccess.FirstChunk` | library/src/backends/api/src/dpu_memory.c:771-796 | the first chunk starts the program and moves the first bytes of the range |
| `MramAccess.FollowingChunk` | library/src/backends/api/src/dpu_memory.c:798-827 | each further chunk resumes the program where it stopped, and ends it exactly when it is the last |
| `MramAccess.NextChunk` | library/src/backends/api/src/dpu_memory.c:798-827 | a chunk extends the part moved by its bytes, sets the marker of the last transfer when asked and leaves the rest of WRAM |
| `MramAccess.ShortChunk` | library/src/backends/api/src/dpu_memory.c:829-861 | the remaining bytes complete the transfer, with the size and the marker rewritten in the context |
| `MramAccess.Divide` | library/src/backends/api/src/dpu_memory.c:757-762 | chunks and remainder make up the size, and there is a complete chunk whenever the chunk is not larger than the size |
| `MramAccess.SavedWordsFit` | library/src/backends/api/src/dpu_memory.c:732-738 | the saved part of WRAM holds the context and a chunk of whole 8-byte blocks that is not larger than the size |
| `MramAccess.PutBack` | library/src/backends/api/src/dpu_memory.c:863-869 | restoring the saved parts gives IRAM and WRAM as they were |
| `MramAccess.CopyFromMram` | library/src/backends/api/src/dpu_memory.c:486-519 | a read delivers exactly the bytes asked for, for every offset, size and buffer alignment, and changes no memory of the DPU |
| `MramAccess.ReadBlocks` | library/src/backends/api/src/dpu_memory.c:486-519 | the range is copied out of the blocks around it |
| `MramAccess.CopyToMram` | library/src/backends/api/src/dpu_memory.c:596-662 | a write of any offset, size and buffer alignment: success writes back the fetched blocks with the data in them, which changes exactly the range when its start or end is 8-aligned; in any outcome nothing changes outside the blocks of the range |
| `MramAccess.FetchEnds` | library/src/backends/api/src/dpu_memory.c:605-639 | the blocks that the range shares with its neighbours are fetched to their places, the tail when its address is aligned, the head when the tail does not go over it |
| `MramAccess.MergedBlocks` | library/src/backends/api/src/dpu_memory.c:641-662 | when the start or the end of the range is 8-aligned, writing back the fetched blocks with the data merged in is writing the data alone |
| `MramAccess.MergedIsExact` | library/src/backends/api/src/dpu_memory.c:641-662 | whatever was fetched, the data arrive in the range and nothing changes outside the blocks; the write changes exactly the range if and only if the bytes around it were fetched |
| `MramAccess.TailFetchAligned` | library/src/backends/api/src/dpu_memory.c:623-626 | the tail is fetched exactly when the range ends inside a block, from an aligned address exactly when the range starts aligned |
| `BitConfig.CalibratedConfiguration` | library/src/backends/ufi/src/ufi_bit_config.c:38-189 | for every wire, the configuration computed from the calibration word as received makes dpu2cpu the wire on all 32-bit values, and cpu2dpu its two-sided inverse |
| `BitConfig.CalibrationFindsTheWire` | library/src/backends/ufi/src/ufi_bit_config.c:38-92 | the computed swap and codes are the wire's own, and the reciprocal ones for the way back |
| `BitConfig.ShuffledIsTheWire` | library/src/backends/ufi/src/ufi_bit_config.c:94-142 | shuffling with a wire's codes gives the one word that has each sent bit where the wire puts it |
| `BitConfig.ShuffledInverse` | library/src/backends/ufi/src/ufi_bit_config.c:144-189 | shuffling with the reciprocal codes, exchanged when the nibbles are, undoes a shuffle |
| `BitConfig.ReciprocalInverts` | library/src/backends/ufi/src/ufi_bit_config.c:194-206 | the reciprocal of a permutation code sends every position back to where it came from, is a permutation, and has the code itself as its reciprocal |
| `BitConfig.GetReciprocal` | library/src/backends/ufi/src/ufi_bit_config.c:194-206 | the loop computes the reciprocal code |
| `BitConfig.Shuffle` | library/src/backends/ufi/src/ufi_bit_config.c:94-189 | the three nested loops, common to both directions, shuffle every nibble of every byte |
| `BitConfig.BitConfig.Compute` | library/src/backends/ufi/src/ufi_bit_config.c:38-92 | the fields after computing are the swap and the codes of the received word |
| `Checkpoint.RoundTrip` | library/src/backends/api/src/dpu_debug.c:286-386 | reading a serialised context, whatever follows it, gives the same context up to zero sizes of absent memories, and takes exactly its bytes, even when the size of an array, computed in 32 bits, wraps |
| `Checkpoint.Layout` | library/src/backends/api/src/dpu_debug.c:456-482 | a serialised context byte for byte: the constants, the six numbers and the arrays, in their order |
| `Checkpoint.SizesInBytes` | library/src/backends/api/src/dpu_debug.c:443-454 | eight bytes an instruction, four a word of WRAM or a register, two a program counter, one for everything else, when nothing wraps |
| `Checkpoint.Accepted` | library/src/backends/api/src/dpu_debug.c:286-320 | a file is accepted exactly when it begins with af db bd fa, 18, 3 and af db bd fa, as little-endian words, and has the bytes that its header states |
| `Checkpoint.HeaderAt` | library/src/backends/api/src/dpu_debug.c:315-320 | the six numbers are the words at bytes 16 to 39 |
| `Checkpoint.NothingToNormalise` | library/src/backends/api/src/dpu_debug.c:337-361 | a context whose memories are absent exactly when their sizes are zero comes back as it was |
| `Bytes.LittleEndian` | library/src/backends/api/src/dpu_debug.c:388-392 | words are stored lowest byte first |
| `Checkpoint.PrefixRejected` | library/src/backends/api/src/dpu_debug.c:254-265 | every proper prefix of a serialised context is rejected |
| `Checkpoint.SizeIsLength` | library/src/backends/api/src/dpu_debug.c:394-415 | the size function is the number of bytes that serialising writes |
| `Checkpoint.Reserialised` | library/src/backends/api/src/dpu_debug.c:286-415 | for any accepted file, wrapping sizes included: the size function of its context is the number of bytes read exactly when the stated instructions, modulo 2^29, fit 16 bits, and serialising the context gives back the bytes exactly when they fit as they are |
| `Checkpoint.ManyInstructions` | library/src/backends/api/src/dpu_debug.c:286-415 | a file of 524339 bytes that states 65536 instructions is accepted, and the size function of its context is not its length |
| `Checkpoint.WrappedInstructions` | library/src/backends/api/src/dpu_debug.c:337 | a file of 51 bytes that states 2^29 instructions is accepted and has the size of its context, which does not serialise to it |
| `Checkpoint.ParseTakesPrefix` | library/src/backends/api/src/dpu_debug.c:286-386 | what is read does not depend on the bytes after those it takes |
| `Checkpoint.Serialize` | library/src/backends/api/src/dpu_debug.c:417-485 | writing the elements one after the other gives the encoded context, in the given buffer or a new one |
| `Checkpoint.Deserialize` | library/src/backends/api/src/dpu_debug.c:286-386 | reading element by element, with a check before each, accepts the same files and gives the same contexts as parsing |
| `RunContext.RunsAreAware` | library/src/backends/api/src/dpu_runner.c:59-378 | over every run of polls, launches, boots and disables the count is the summed popcount of the running masks, and every enabled DPU that executes is believed to be running |
| `RunContext.NewIsAware` | library/src/backends/api/src/dpu_management.c:313 | a new rank, zero-initialised, on which nothing executes is counted and aware: where runs begin |
| `RunContext.CopiesAreSafe` | library/src/backends/api/src/dpu_memory.c:286-294 | at the end of every run, MRAM is copied only while no enabled DPU executes |
| `RunContext.BootsAreSafe` | library/src/backends/api/src/dpu_runner.c:318-378 | at the end of every run, booting an enabled DPU that executes, or its rank, is refused as already running and changes nothing |
| `RunContext.DisabledIsLeftAlone` | library/src/backends/api/src/dpu_internals.c:19-40 | a disabled DPU is refused by launches and boots and never polled as running, and the other DPUs are polled as before |
| `RunContext.DoneOpensTheGates` | library/src/backends/api/src/dpu_runner.c:357-406 | the rank's status says done exactly when the count is zero, which is when the busy checks of rank boots and MRAM copies pass |
| `RunContext.StepCounted` | library/src/backends/api/src/dpu_runner.c:97-378 | every operation, failing or not, keeps the count |
| `RunContext.StepAware` | library/src/backends/api/src/dpu_runner.c:97-378 | every operation keeps the executing enabled DPUs among those believed to be running |
| `RunContext.PollTruth` | library/src/backends/api/src/dpu_runner.c:273-282 | a successful poll counts a DPU as running exactly when it is enabled, read as running and not in fault, and as in fault exactly when enabled and read so |
| `RunContext.PollBits` | library/src/backends/api/src/dpu_runner.c:177-287 | a failing poll changes nothing; after one that works every DPU is what it was read as and the count is right |
| `RunContext.LaunchDpuBits` | library/src/backends/api/src/dpu_runner.c:118-174 | a launch answers what fails, or Ok; then the DPU launched runs, every other is what the poll read it as, and the count is right |
| `RunContext.LaunchRankBits` | library/src/backends/api/src/dpu_runner.c:59-115 | the same for a rank: on success exactly the enabled DPUs run |
| `RunContext.BootDpuBits` | library/src/backends/api/src/dpu_runner.c:318-354 | a DPU is booted exactly when it is enabled, does not count as running and is prepared; refusals and failures before the poll change nothing |
| `RunContext.BootRankBits` | library/src/backends/api/src/dpu_runner.c:357-384 | a rank is booted exactly when its count is zero and it is prepared |
| `RunContext.DisableBits` | library/src/backends/api/src/dpu_internals.c:19-40 | disabling a DPU takes it, and no other, out of the enabled ones and changes nothing else |
| `RunContext.PolledApart` | library/src/backends/api/src/dpu_runner.c:273-282 | after a successful poll running and fault are within enabled and disjoint |
| `RunContext.PollFindsIdle` | library/src/backends/api/src/dpu_runner.c:273-282 | a successful poll brings the count to zero exactly when it reads no enabled DPU as executing |
| `RunContext.TotalRaised` | library/src/backends/api/src/dpu_runner.c:166-169 | setting a clear bit adds one to the summed popcount |
| `Bits.BitIsPower` | library/src/backends/commons/include/dpu_mask.h:22-26 | the mask of member i is 1 << i |
| `RunContext.Rank.Poll` | library/src/backends/api/src/dpu_runner.c:177-287 | the loop over the slices is the specified poll; a failing one changes nothing |
| `RunContext.Rank.LaunchThreadOnRank` | library/src/backends/api/src/dpu_runner.c:59-115 | polls, boots, and only then takes all enabled DPUs for running |
| `RunContext.Rank.LaunchThreadOnDpu` | library/src/backends/api/src/dpu_runner.c:118-174 | polls, boots, and counts the DPU once when it was not running; a disabled DPU is refused |
| `RunContext.Rank.Boot` | library/src/backends/api/src/dpu_runner.c:318-354 | refuses disabled and running DPUs without a change, and launches otherwise |
| `RunContext.Rank.BootAll` | library/src/backends/api/src/dpu_runner.c:357-384 | refuses a rank with a running DPU without a change, and launches otherwise |
| `RunContext.Rank.Disable` | library/src/backends/api/src/dpu_internals.c:19-40 | clears the DPU's flag and its bit among the enabled, and touches neither running nor the count |
| `RunContext.Rank.StatusOf` | library/src/backends/api/src/dpu_runner.c:387-406 | done exactly when no slice has a running DPU, fault exactly when some slice has one in fault |
| `DrainPipeline.DrainedContext` | library/src/backends/api/src/dpu_internals.c:86-119 | whatever the run registers show: a drain that ended well gave the initially running threads, and only them, distinct consecutive places in drain order and the program counter of the round that first saw them stopped, and grew the number of running threads by theirs |
| `DrainPipeline.EndedOrder` | library/src/backends/api/src/dpu_internals.c:103-115 | the order of draining holds each initially running thread once and no other |
| `DrainPipeline.OrderSorted` | library/src/backends/api/src/dpu_internals.c:103-114 | the order goes by the round that first sees a thread stopped, then by thread number |
| `DrainPipeline.OrderMembers` | library/src/backends/api/src/dpu_internals.c:103-114 | a thread is in the order at some point exactly when it ran at first and was seen stopped before |
| `DrainPipeline.RecordedPlaces` | library/src/backends/api/src/dpu_internals.c:109-111 | recording threads in an order gives each its place from the old count on, modulo 256, and no other thread one |
| `DrainPipeline.RecordedPcs` | library/src/backends/api/src/dpu_internals.c:107-108 | a recorded thread has the program counter of the round that first saw it stopped, others keep theirs |
| `DrainPipeline.DrainPipeline` | library/src/backends/api/src/dpu_internals.c:43-125 | fails before any round when the run registers cannot be read, else ends at the first round that sees no thread running, or when the driver fails; either way the rounds gone through are recorded and nothing else |
| `Keccakf.KeccakF` | usecase_keccakf/bench_keccakf_dpu.c:48-244 | in place, on any 25 lanes, KECCAK-f[1600] of section 3.4 of FIPS 202 |
| `Keccakf.Permute` | usecase_keccakf/bench_keccakf_dpu.c:78-218 | 24 unrolled rounds on 25 lane variables are 24 times theta, rho, pi, chi and iota |
| `KeccakFips.ThetaLane` | usecase_keccakf/bench_keccakf_dpu.c:80-114 | theta lane by lane, as section 3.2.1 of FIPS 202 puts it |
| `KeccakFips.RhoWalk` | usecase_keccakf/bench_keccakf_dpu.c:116-164 | the rotation of the lane at each of the 24 steps of the walk of section 3.2.2 of FIPS 202 is the triangular number of the step |
| `KeccakFips.WalkReaches` | usecase_keccakf/bench_keccakf_dpu.c:116-164 | the walk visits every lane but the one at the origin, so that every rotation is covered |
| `KeccakFips.RhoLane` | usecase_keccakf/bench_keccakf_dpu.c:116-164 | rho rotates every lane by its offset and leaves the lane at the origin |
| `KeccakFips.PiLane` | usecase_keccakf/bench_keccakf_dpu.c:116-164 | pi lane by lane, section 3.2.3 of FIPS 202 |
| `KeccakFips.ChiLane` | usecase_keccakf/bench_keccakf_dpu.c:166-215 | chi lane by lane, section 3.2.4 of FIPS 202 |
| `KeccakFips.RoundConstantTable` | usecase_keccakf/bench_keccakf_dpu.c:42-46 | the 24 constants are those that the shift register of section 3.2.5 of FIPS 202 produces |
| `KeccakFips.RoundLane` | usecase_keccakf/bench_keccakf_dpu.c:78-218 | a whole round lane by lane, in terms of the lanes before it |
| `KeccakFips.PermutationOf` | usecase_keccakf/bench_keccakf_dpu.c:78-218 | any sequence of states that follows rounds 0 to 23 ends in the permutation of its first |
| `KeccakFips.RotlOnce` | usecase_keccakf/bench_keccakf_dpu.c:40 | rotating by one shifts up and brings the top bit round |
| `KeccakFips.RotlOfOne` | usecase_keccakf/bench_keccakf_dpu.c:40 | rotating by n moves the bottom bit to bit n |
| `KeccakFips.AndNotBit` | usecase_keccakf/bench_keccakf_dpu.c:166-215 | the bits of chi's product are those clear in the first and set in the second lane |
| `Keccakf.LaneIndex` | usecase_keccakf/bench_keccakf_dpu.c:53-77 | lane (x, y) of the state is element x + 5y of the array, in both directions |
| `Scramble.ScrambleKey` | usecase_keccakf/bench_keccakf_dpu.c:255-285 | stopped in any iteration, the record holds that iteration and the state it starts from; otherwise the scramble of the key |
| `Scramble.TaskletMain` | usecase_keccakf/bench_keccakf_dpu.c:287-313 | stopped in any iteration of any key, the record is the checkpoint there, with the sum of the keys before; otherwise the sum of the whole range |
| `Scramble.StartHasKey` | usecase_keccakf/bench_keccakf_dpu.c:257-265 | every lane starts as its constant with the key in it |
| `Scramble.StartsDiffer` | usecase_keccakf/bench_keccakf_dpu.c:264-265 | distinct keys start from distinct states |
| `Scramble.AdvanceLane` | usecase_keccakf/bench_keccakf_dpu.c:273-277 | an iteration permutes the lanes and moves each one place down, the first to the end |
| `Scramble.FoldBits` | usecase_keccakf/bench_keccakf_dpu.c:281-284 | the sum has the bits that an odd number of lanes have |
| `Scramble.OneKey` | usecase_keccakf/bench_keccakf_dpu.c:307-309 | the sum of a range of one key is the scramble of that key |
| `Scramble.HostResume` | usecase_keccakf/app_host.c:259-284 | what the host's loops add for any record, that of a tasklet stopped before its first iteration included |
| `Scramble.HostAddsParity` | usecase_keccakf/app_host.c:266-284 | for any record, the host adds the saved state, run through what iterations remain, once when an odd number of keys remained, and nothing otherwise |
| `Scramble.ResumedScramble` | usecase_keccakf/app_host.c:273-282 | running the saved state through the remaining iterations gives the uninterrupted scramble of its key |
| `Scramble.ResumedTotal` | usecase_keccakf/app_host.c:259-284 | for every checkpoint, stored sum and added values make the sum up to the key in flight, without it when an even number of keys remained |
| `Scramble.ResumeRestoresSum` | usecase_keccakf/app_host.c:259-284 | the total is the uninterrupted sum of the range exactly when the keys not run cancel; always so when the key in flight was the last |
| `ScrambleAnswer.Key0Scramble` | usecase_keccakf/bench_keccakf_dpu.c:255-285 | a known answer: one iteration with key 0, starting from the constants of the source, gives 104e4f18e4a82408 |
| `ScrambleAnswer.Key1Scramble` | usecase_keccakf/bench_keccakf_dpu.c:255-285 | and with key 1, 947910fbd0dea14e |
| `ScrambleAnswer.ResumeFails` | usecase_keccakf/app_host.c:259-284 | with keys 0 and 1 and one iteration, stopped in the first: the total after resuming is zero, the uninterrupted sum is not |
| `Scramble.RangeSplits` | usecase_keccakf/bench_keccakf_dpu.c:307-313 | the sums of adjacent key ranges combine to that of both |
| `KeyRanges.AssignRanges` | usecase_keccakf/app_host.c:319-334 | the nested loops give every tasklet the range between its exact boundaries, no 64- or 32-bit value wrapping |
| `KeyRanges.KeysAreBoundaries` | usecase_keccakf/app_host.c:327-330 | the bounds as computed in 64 bits and stored in 32 are the exact rounded-up quotients, and the cap at the last key changes nothing |
| `KeyRanges.BoundarySteps` | usecase_keccakf/app_host.c:327-330 | the ranges start at the first key, end at the last and differ in size by at most one |
| `KeyRanges.BoundaryRoundsUp` | usecase_keccakf/app_host.c:327-328 | a boundary is the share of the keys below it, rounded up |
| `KeyRanges.OneTaskletPerKey` | usecase_keccakf/app_host.c:319-334 | a key is in the range exactly when it is in the range of some tasklet, and then of one only |
| `KeyRanges.TaskletSumsCombine` | usecase_keccakf/app_host.c:319-334 | the XOR of the tasklets' sums is the sum of all keys |
| `KeyRanges.PreemptedTotal` | usecase_keccakf/app_host.c:247-288 | however the tasklets ended, stored sums and additions make up the sums of the keys that each reached: its whole range, or up to the key in flight, without it when an even number of keys remained |
| `KeyRanges.CheckpointIsInFlight` | usecase_keccakf/app_host.c:259-284 | the stored sum and the additions of a checkpoint record are those of a tasklet stopped there |
| `KeyRanges.EndIsFinished` | usecase_keccakf/bench_keccakf_dpu.c:307-313 | to the record of a tasklet that has gone through its range the host adds nothing |
| `KeyRanges.ResumedFinalSum` | usecase_keccakf/app_host.c:319-366 | the final sum of a preempted run is that of an uninterrupted one when every tasklet had finished or was in its last key |
| `Checksum.ResumedReduction` | checksum/host/host.c:165-168 | whatever checkpoint each tasklet left, the reduction after resuming is the sum of all bytes modulo 2^32, as it is without preemption |
| `Checksum.ResumeCompletes` | checksum/host/host.c:89-99 | from a checkpoint after any block, in any repetition, or after the end, the host completes the tasklet's sum |
| `Checksum.TornIsWrong` | checksum/dpu/dpu.c:87-88 | a record with the new sum and the old index is completed exactly when the block between adds nothing |
| `Checksum.TornExample` | checksum/dpu/dpu.c:87-88 | with one tasklet and two blocks of ones a torn record is completed wrongly |
| `Checksum.RakesCover` | checksum/dpu/dpu.c:76-89 | the tasklets' strided sums add up to the sum of all bytes |
| `Checksum.OneRake` | checksum/dpu/dpu.c:76-77 | every index is in the blocks of exactly one tasklet |
| `Checksum.SplitAt` | checksum/host/host.c:90-98 | the blocks done and the blocks that follow are all of a tasklet's blocks |
| `Checksum.ProgramFits` | checksum/common/common.h:13-16 | the program's buffer fits 32-bit indices for every number of tasklets from 1 to 8372223, and for no other |
| `Checksum.TaskletMain` | checksum/dpu/dpu.c:59-108 | stopped after any block of any repetition, the record holds that block and the sum up to it; otherwise the tasklet's sum, with an index from which nothing follows |
| `Checksum.Agreed` | checksum/dpu/dpu.c:96-101 | the sum of the first repetition is taken |
| `Checksum.IsSame` | checksum/dpu/dpu.c:48-52 | true exactly when some element differs from the first |
| `Checksum.HostResume` | checksum/host/host.c:77-102 | the records of preempted DPUs, and only those, are resumed |
| `Checksum.Reduce` | checksum/host/host.c:162-168 | the 32-bit sum of a DPU's records |
| `HashTable.RunAgrees` | hashtable/common/hashtable.c:3-69 | after every operation of a run of inserts of absent keys, deletes and searches that leaves a NULL cell, searching is looking up in a finite map |
| `HashTable.SearchAgrees` | hashtable/common/hashtable.c:3-21 | search finds the item of a live key, and nothing for an absent one |
| `HashTable.InsertAgrees` | hashtable/common/hashtable.c:23-42 | an insert makes the table the map with the new entry exactly when the key was absent |
| `HashTable.InsertExample` | hashtable/common/hashtable.c:23-42 | inserting a present key leaves it in two cells, which no map is |
| `HashTable.DeleteAgrees` | hashtable/common/hashtable.c:44-69 | a delete removes its key from the map and disturbs no other |
| `HashTable.EmptyRepresents` | hashtable/common/hashtable.c:3-69 | a table of NULL cells is the empty map |
| `HashTable.Table.SearchItem` | hashtable/common/hashtable.c:3-21 | the probing loop ends, and returns the item in the cell of the specified search, or NULL |
| `HashTable.Table.InsertItem` | hashtable/common/hashtable.c:23-42 | the probing loop ends, and fills the first free cell it meets |
| `HashTable.Table.DeleteItem` | hashtable/common/hashtable.c:44-69 | the probing loop ends, puts the dummy in the item's cell and returns the item |
| `RankRegistry.RunHolds` | library/src/backends/api/src/dpu_rank_handler_allocator.c:201-252 | over every run of adds of distinct ranks and removes, the list holds each live rank once and nothing else, and the cursor is on an empty slot |
| `RankRegistry.NewHoldsNothing` | library/src/backends/api/src/dpu_rank_handler_allocator.c:170-175 | the list of one empty slot holds no rank: where runs begin |
| `RankRegistry.RunKeepsPlace` | library/src/backends/api/src/dpu_rank_handler_allocator.c:211-228 | a rank keeps its index until it is removed, growth included |
| `RankRegistry.RunSpace` | library/src/backends/api/src/dpu_rank_handler_allocator.c:211-214 | the list never has more slots than twice the most ranks live at once, and one |
| `RankRegistry.HoldsEachOnce` | library/src/backends/api/src/dpu_rank_handler_allocator.c:231-252 | a rank is in as many slots as it is live: one or none |
| `RankRegistry.AddPlaces` | library/src/backends/api/src/dpu_rank_handler_allocator.c:201-239 | adding stores the rank at the cursor, moves no entry and leaves the cursor on the first empty slot |
| `RankRegistry.Registry.UpdateNext` | library/src/backends/api/src/dpu_rank_handler_allocator.c:201-229 | the cursor goes to the first empty slot, or the list grows to twice its size and one with the entries in place |
| `RankRegistry.Registry.Add` | library/src/backends/api/src/dpu_rank_handler_allocator.c:231-239 | the rank goes to the cursor's slot and the cursor is moved on |
| `RankRegistry.Registry.Remove` | library/src/backends/api/src/dpu_rank_handler_allocator.c:241-252 | the first slot with the rank is emptied, the cursor stays |

## Left out

- MramAccess.CopyToMram: with both ends unaligned the tail is fetched from an unaligned address (`TailFetchAligned`), which delivers what DMA behaviour outside the sources makes of it; `ReadMisaligned` lets it be any eight bytes, so that the bytes around the range are not promised.
- MramAccess.Access: the registers, flags and scheduling of the threads, saved and restored around a transfer, are not modelled; nor are the events sent to the driver, and polling always ends.
- MramAccess.CopyFromMram: models the transfer of one DPU with the buffer it is handed; the dispatch over the DPUs of a matrix, which passes the whole matrix on when nothing needs aligning, is not modelled.
- ControlInterface.CommandIsAnswered: says nothing about the colours after a timeout or a driver failure, where the colour is inverted but the state of the CIs is unknown; it assumes colour bytes at most three bits off and commands that are not NOPs.
- ControlInterface.LearningSynchronises: the results returned through `ret_data` are not modelled.
- Byte discovery, the commands built on `exec_cmd`, logging and the retries of the driver.
- KeyRanges.ResumedFinalSum: checkpoints taken inside an iteration only; those between two keys, before the first iteration or in the middle of copying the state are not covered, nor is the unsynchronised update of the total by several threads.
- Checksum.ResumeCompletes: records from before a tasklet's first block, and records torn between two repetitions, are not covered.
- Checkpoint.Serialize: allocation always succeeds; so it does in reading a file.
- RunContext.RunsAreAware: profiling, locking and the driver's own state are not modelled.
- DrainPipeline.DrainPipeline: rounds are those before the driver fails; a drain that goes on for ever is not modelled. Allocation always succeeds.
- HashTable.RunAgrees: items are values, so that two tables or an item changed after its insertion are not modelled; allocation always succeeds.
- RankRegistry.RunHolds: reallocation always succeeds, the size does not reach 2^31, and locking is not modelled.
- The table in hashtable/common/common.h and the binary-search kernel.
- ELF files, core dumps, dynamic loading, profiles, timers, plots and scripts; the disassembler; chip descriptions, which are data.
