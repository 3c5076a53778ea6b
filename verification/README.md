# A verified model of RyzenAdj

RyzenAdj adjusts power limits of AMD APUs. It parses a command line, turns every option into one or two commands for the
processor's System Management Unit (SMU), and can read a telemetry table back. This project models that path in Dafny, from
the words of the command line to the commands the firmware takes, and proves what each part promises.
`dafny verify dfyconfig.toml` checks everything.

## The parts

**The SMU mailbox** (`SmuLayout`, `MailboxProtocol`, `MailboxSafety`, `MailboxIntegrity`, `MailboxCalls`, `MailboxSerial`,
`MailboxResponses`, `LateAnswers`, `SilentReads`, `Unlocked`, `MailboxPaths`, `MailboxClient`).
A request is some fifteen separate accesses through one shared "select an address, then transfer data" window, serialised
between processes by an advisory flock, with an optional driver interface tried first. The model is a step relation over any
number of processes, the selected address, a register map, and the SMU as an environment process that takes a command when a
doorbell register is written and answers at any later moment. Each process uses one of the two backends, the driver, with or
without its transaction interface, or PCI configuration space. Handing a transaction to the driver is a step of its own with one
of four outcomes: there is no interface, or the driver answers EINVAL, and then nothing has run; or the write fails in any other
way, and the command may have run; or it was taken. Any access can fail, and a failed one may still have reached the hardware; the driver reports every failure,
while a data read through PCI configuration space fails unnoticed, because the code does not check it. A process can also
end in the middle of a call; the kernel then drops its lock, and what it has sent or half written stays.
`MailboxClient` is the C code of one process, statement by statement; each of its methods is proved to be a run
of the machine in which the others act between any two accesses, so theorems about runs are theorems about the code.
The theorems assume:

- each process is single-threaded; a successful flock is exclusive. The code goes on unlocked where it cannot lock, so whether
  flock works is a property of each process; the theorems are about machines where it works for all (`FlockWorks`), and
  `Unlocked.IntactIffLocked` shows that one process without it is enough to lose request integrity;
- the SMU takes id and arguments at the doorbell, and posts results and response together;
- the driver says EINVAL only for a command it did not run, and a success it reports is the SMU's answer to that command;
- CLOCK_MONOTONIC never goes back and passes every bound.

Waits are bounded by readings of that clock: the lock is given up at the first reading 2000 ms or more after the first one, a
response at the first reading 1000 ms or more after it, neither earlier nor later, and both methods say how often they try.

What a single call can rely on depends on one thing more, which is a condition of that call and not of the run: whether its
mailbox is quiet when it takes the lock, that is, whether no earlier command that timed out is still pending there. The call
is then *calm*: what the SMU takes for it is its own request, and a success it really reads was executed
(`MailboxCalls.CallIsIntact`, `MailboxCalls.CallSucceeds`), whatever other calls do before, meanwhile or afterwards. The code does
not guard against a late answer, which can even overwrite argument registers that were already written, so the condition is
exact, at the lock and still at the doorbell (`LateAnswers.CallIntactIffQuiet`, `LateAnswers.IntactIffQuiet`).

**The argument parser** (`ArgOptions`, `Numerals`, `ArgSemantics`, `ArgParser`, `ArgClusters`, `ArgProperties`, `ArgReading`,
`ArgBinding`, `ArgValues`). `ArgParser.Parser` compacts argv in place, as the C code does, and is proved equal to a left-to-right fold; the
properties are proved of the fold. Its numerals follow strtoul and strtoll with base 0, section 7.22.1.4 of ISO/IEC 9899:2011, with a 64-bit
long, and are compared with a grammar.

**The metric table** (`PmTable`, `PageWindow`, `ReadFull`). Lazy initialisation, the mutual recursion of `init_table` and
`refresh_table` that a busy flag cuts, the agreement of table size and buffer, conditional transfers, the arithmetic of the
mapped window, and the read loop of the driver backend. Memory, mappings and reads that the operating system refuses are counted,
so that each method succeeds exactly when the SMU answered and nothing was refused.

**The tool** (`Setters`, `MainOptions`, `MainPlan`, `CommandLine`, `Tool`). The setters with their family switches and second
try, main's real option table, what a user can type and what it means, the initialisation with its two mailbox tests, and `main`
itself. `Tool.RunTool` joins everything: the command line goes through the in-place parser, and every test, request of a setter
and request of the metric table is a call of the shared machine, so its contract speaks about all calls one run of the tool
makes: which there are, which there must be, and what their arguments are.

## What the proofs found

- On a machine without the driver a failed data read goes unnoticed, so a call can succeed with words that are not the SMU's
  results, and a failed poll passes for a response (`SilentReads.LostResult`, `SilentReads.LostPoll`). If failed reads are all
  ones, as in libpci, a reported success is still a real one, every other word returned is right, and the whole result is right
  exactly if every lost word is all ones in the answer itself (`MailboxCalls.ResultsExact`). The results of all successes are
  right exactly for processes on the driver (`MailboxResponses.ResultsIffDriver`).
- Responses other than success have the same limit. Without the driver a failed select during the poll is noticed, but what is
  read is the doorbell, so a call returns its own message id as the response (`SilentReads.OwnIdReturned`). Every response, also
  a refusal, is the SMU's exactly for processes on the driver (`MailboxResponses.ResponsesIffDriver`).
- The mailbox test can pass without an answer, because its message id is the code of success (`SilentReads.UnansweredTest`), and
  on either backend even without a message (`SilentReads.UnsentTest`), because it throws the error flag away. With the flag clear
  its response is the SMU's exactly for processes on the driver (`MailboxResponses.TestsIffDriver`).
- A BOOLEAN option spelled with `=` leaves a text behind that a later option without `=` takes as its value
  (`ArgBinding.StaleExample`): in the tool `--info=5 --stapm-limit` applies a limit of 5 (`CommandLine.LeftBehindLimit`).
  `ArgBinding.ValuesAreOwnIff` says exactly for which command lines values are bound as written.
- A limit of 4294967295 is accepted by the parser and then silently not applied (`MainPlan.LimitApplied`, `CommandLine.OneSetting`).
- Skin temperatures are multiplied by 256 in 32 bits, so values that agree in their low 24 bits are sent as the same word
  (`Setters.SkinTempSharing`).
- A re-initialisation that fails after its version query leaves the new size over the old buffer; the getters' bounds check is
  then sound exactly when the new size does not exceed the capacity (`PmTable.ReadsInBoundsIff`). When the version query times
  out the handle ends with version 0 and the probe size of 4096 bytes over the old buffer, so the getters stay in bounds exactly
  if that buffer has at least 4096 bytes, and every table size the code knows by version is smaller (`PmTable.RyzenAccess.InitTable`).
- The long-option scan is not "split at the first `=`" for every table; `ArgOptions.LongMatchExact` gives the exact condition,
  and `MainOptions.TableIsRegular` shows that the tool's table meets it.

## Model

| member | source | states |
|---|---|---|
| SmuLayout.LayoutDisjoint | lib/nb_smu_ops.c:274-334 | for every family the sixteen registers of the two mailboxes are different, word-aligned addresses |
| MailboxProtocol.ConfigOfIsValid | lib/nb_smu_ops.c:18-53 | so every family gives a machine the protocol theorems apply to |
| MailboxSafety.LockSafety | lib/nb_smu_ops.c:100-130 | in every run at most one process is inside a transaction, only the lock holder touches the hardware, and outside a call nothing is held |
| MailboxSafety.EveryExitReleases | lib/nb_smu_ops.c:168-272 | every way out of smu_service_req and smu_service_test after the lock was taken, also the end of the process, leaves it free |
| MailboxSafety.AtMostOneCommandPerCall | lib/nb_smu_ops.c:178-208 | over driver path and register fallback a call makes the SMU run at most one command |
| MailboxSafety.NothingSentWithoutSetup | lib/nb_smu_ops.c:174-205 | a call that was refused the lock or whose setup failed reaches the SMU with nothing |
| MailboxSafety.LockInvStep | lib/nb_smu_ops.c:168-272 | each single step of any process and of the SMU keeps the lock, ticket and record invariants |
| MailboxIntegrity.DoorbellsAreIntact | lib/nb_smu_ops.c:184-207 | in every run, every command taken for a request that found its mailbox quiet carries the id and all six arguments of that one request, on its mailbox |
| MailboxIntegrity.DataInvStep | lib/nb_smu_ops.c:184-224 | each single step keeps what is known, call by call, of registers, pending commands and results |
| MailboxCalls.CalmMeansQuiet | lib/nb_smu_ops.c:174-175 | from the moment a call takes the lock its records say whether its mailbox was quiet at that moment |
| MailboxCalls.CallIsIntact | lib/nb_smu_ops.c:174-207 | a call whose mailbox is quiet when it takes the lock: whatever the SMU ever takes for it is its own request |
| MailboxCalls.CallSucceeds | lib/nb_smu_ops.c:174-231 | and if it returns a success that it really read, the SMU ran it exactly once and answered it with success |
| MailboxCalls.SuccessMeansExecuted | lib/nb_smu_ops.c:206-230 | for any finished calm call of any run: success means the SMU ran this request exactly once, answered with success, and the returned arguments are its results except for words whose reading failed unnoticed |
| MailboxCalls.ResultsExact | lib/linux/osdep_linux_mem.c:154-158 | if failed reads are all ones: a success is real, every word that is not all ones is the SMU's, and the result is the SMU's exactly if every lost word is all ones in its answer |
| MailboxCalls.DriverLosesNothing | lib/linux/osdep_linux_smu_kernel_module.c:171-199 | through the driver no read fails unnoticed, in any run |
| SilentReads.LostResult | lib/linux/osdep_linux_mem.c:154-158 | a run without the driver in which a calm call succeeds with a word that is not the SMU's result |
| SilentReads.LostPoll | lib/linux/osdep_linux_mem.c:154-158 | a run without the driver in which a lost poll makes a call return before the SMU has answered |
| SilentReads.OwnIdReturned | lib/nb_smu_ops.c:215-224 | a run without the driver and without a lost read in which a call returns its own message id as the response |
| SilentReads.UnansweredTest | lib/nb_smu_ops.c:252-271 | a run without the driver and without a lost read in which the mailbox test passes before the SMU has answered |
| SilentReads.UnsentTest | lib/nb_smu_ops.c:244-271 | a run on either backend in which the mailbox test passes although no message was sent |
| MailboxResponses.ResponsesIffDriver | lib/nb_smu_ops.c:206-230 | over all runs: every response of a process's calm requests, except a timeout, is the SMU's answer to the call's own command (a failure perhaps to a success that could not be read back) if and only if the process uses the driver |
| MailboxResponses.TestsIffDriver | lib/nb_smu_ops.c:252-271 | over all runs: the response of every calm test in which no failure was noticed is the SMU's answer to the test message if and only if the process uses the driver |
| MailboxResponses.ResultsIffDriver | lib/nb_smu_ops.c:215-230 | over all runs: every calm success was executed and returns exactly the SMU's results if and only if the process uses the driver |
| MailboxResponses.RespStep | lib/nb_smu_ops.c:184-224 | each single step keeps what is known of the response register and of the responses returned |
| MailboxSerial.TransactionStep | lib/nb_smu_ops.c:168-230 | every interleaved step is no step or one whole call of a sequential machine: it comes next in lock order, runs nothing or one command that is its own request if it was calm, and a success is the answer to that command |
| MailboxSerial.ExecutedInLockOrder | lib/nb_smu_ops.c:100-130 | calls finish in the order in which they took the lock, and what the SMU ran for them is their commands in that order, leaving out calls that sent nothing |
| LateAnswers.CallIntactIffQuiet | lib/nb_smu_ops.c:174-214 | at the lock: that the SMU will take nothing but a call's own request for it is certain if and only if nothing is pending on its mailbox |
| LateAnswers.IntactIffQuiet | lib/nb_smu_ops.c:206-214 | at the doorbell: a fully prepared request is certain to be sent as it is if and only if nothing is pending on its mailbox |
| LateAnswers.LateAnswerTears | lib/nb_smu_ops.c:209-214 | with a timed-out command pending there is a run in which the request is sent with a foreign argument |
| Unlocked.ArgumentsMix | lib/nb_smu_ops.c:104-116 | one process without the lock, on any backends: there is a run in which the SMU takes its calm request with another process's argument |
| Unlocked.LimitRunsAsCommand | lib/nb_smu_ops.c:104-116 | one process without the lock, and no driver: there is a run in which the power limit of its calm call is taken as a message id |
| Unlocked.IntactIffLocked | lib/nb_smu_ops.c:76-93 | over all runs, every command taken for a calm call is its whole request if and only if flock works for every process |
| MailboxClient.Client.SmuLock | lib/nb_smu_ops.c:100-124 | ends for every ticking clock; one try before each reading, and it gives up at the first reading 2000 ms after its first one and at no other; 0 means the lock is held (or flock does not work), -1 that this reading came |
| MailboxClient.Client.SmuWaitForResponse | lib/nb_smu_ops.c:146-166 | ends; one reading after each poll that read 0, every reading but the last is before the deadline of 1000 ms, and the last reaches it exactly if the result is a timeout; otherwise the result is the first nonzero poll |
| MailboxClient.Client.SmnRegWrite | lib/linux/osdep_linux_mem.c:160-164 | a write is one store to the shared window, whole or in two halves with others in between, and a failure of either half sets the sticky flag |
| MailboxClient.Client.SmnRegRead | lib/linux/osdep_linux_mem.c:154-158 | what a read returns and does to the call; words that failed unnoticed are on record, and only without the driver |
| MailboxClient.Client.ReadMapped | lib/linux/osdep_linux_mem.c:154-158 | without the driver: what is selected is read even after a failed select, which sets the flag; a failed data read returns anything and sets nothing |
| MailboxClient.Client.ReadDriver | lib/linux/osdep_linux_smu_kernel_module.c:171-199 | with the driver: every failure returns 0 and sets the flag |
| MailboxClient.Client.SmnIoTakeError | lib/linux/osdep_linux.c:22-27 | returns whether a failure was noticed since the last look, and forgets it |
| MailboxClient.Client.SmuRawCmd | lib/linux/osdep_linux_smu_kernel_module.c:252-301 | falls back exactly if there is no interface or the driver answered EINVAL, with arguments and error flag untouched; any other failed write ends the call with REP_FAILED, and a taken one with the translation of the result the driver returned |
| MailboxClient.Client.SubmitRaw | lib/linux/osdep_linux_smu_kernel_module.c:252-273 | the write of the transaction: the machine draws whether the command ran before its outcome is looked at, and only no interface and EINVAL say that it did not |
| MailboxClient.Client.CopyResult | lib/linux/osdep_linux_smu_kernel_module.c:282-301 | each status word's response: the SMU's own five codes unchanged, 0xFB a timeout, anything else a failure; results only on success |
| MailboxClient.Client.Prepare | lib/nb_smu_ops.c:184-205 | the doorbell is reached exactly if no write has failed since the flag was cleared; otherwise the call ends as failed |
| MailboxClient.Client.Collect | lib/nb_smu_ops.c:215-230 | a success stays one exactly if no failure was noticed, also while reading back |
| MailboxClient.Client.RegisterPath | lib/nb_smu_ops.c:184-230 | the register path is one call of the machine, returning its response and results; success means that no failure was noticed since the flag was cleared, and a timeout leaves the arguments alone |
| MailboxClient.Client.SmuServiceReq | lib/nb_smu_ops.c:168-231 | the call returns the response and results recorded for exactly this request, holds no lock afterwards, and leaves the arguments alone after a timeout; it is refused only after 2000 ms and waits for its response no longer than 1000 ms of clock readings; where flock works and its mailbox was quiet, a success means it was executed, and through the driver's registers any response is the SMU's |
| MailboxClient.Client.SmuServiceTest | lib/nb_smu_ops.c:233-272 | the answer is yes exactly when the recorded response is success, the lock is released, the waits have the same bounds, and on the driver a yes to a calm test with no failure noticed is the SMU's answer |
| Numerals.U32Exact | argparse.c:156-198 | U32 accepts exactly blanks followed by a sign-free base-0 numeral below 2^32, with its value |
| Numerals.CO32Exact | argparse.c:199-252 | CO32 accepts exactly signed numerals strictly between -2^32 and 2^32, with their value |
| Numerals.IntegerExact | argparse.c:127-155 | INTEGER accepts exactly signed numerals of an int, with their value |
| Numerals.CoWordSharing | main.c:67-71 | an accepted offset is never the marker INT64_MIN, and two offsets send one word exactly if they are equal or 2^32 apart |
| Numerals.PrintRoundTrip | argparse.c:156-198 | decimal and hexadecimal printing of any 32-bit word reads back as that word |
| Numerals.OffsetRoundTrip | argparse.c:199-252 | so does printing any offset in range |
| ArgOptions.LongMatchExact | argparse.c:326-363 | the prefix-based match equals "split at the first =, compare with the name or its no- name" on all texts if and only if the option is regular |
| ArgOptions.FindLongExact | argparse.c:326-363 | in a regular table the scan finds the first row named by the key |
| ArgOptions.PrefixCmpIsPrefix | argparse.c:37-46 | prefix_cmp is 0 exactly for prefixes |
| ArgParser.Parser.GetValue | argparse.c:87-290 | one option's effect on cursor, pending text and variables is the fold's |
| ArgParser.Parser.ShortCluster | argparse.c:415-434 | a cluster of short options ends and does what the fold does (its meaning is ArgClusters.ClusterMeaning) |
| ArgClusters.ClusterMeaning | argparse.c:314-323 | in any table: flag letters followed by a letter that takes a value apply every flag once, in order, and give the value option the whole remaining text, or the next argument if nothing remains |
| ArgParser.Parser.LongOpt | argparse.c:326-363 | a long option does what the fold does |
| ArgParser.Parser.Parse | argparse.c:386-458 | the in-place loop computes the fold, never overwrites an unread slot, and leaves the output followed by NULL in bounds |
| ArgProperties.ArgvConserved | argparse.c:398-457 | after success argv is the kept words in order plus the unparsed tail, and every other argument is one option, the value of the option before it, or -- |
| ArgReading.EventsAreWritten | argparse.c:314-363 | after success the options acted on are exactly those written in the option arguments, each once, in order and negated exactly if written so; a cluster is read up to the first letter that takes a value |
| ArgReading.DoneEnds | argparse.c:400-457 | a successful parse has gone to the end, to --, or to the first word if words stop it, and keeps words only where neither flag forbids it |
| ArgReading.FailureHasCause | argparse.c:386-451 | a parse fails only without arguments, at a word that is not allowed, or at an option that asks for help, is unknown, has a bad value or lacks one; the status is 0 exactly for help |
| ArgBinding.CleanParseOwns | argparse.c:116-125 | with the value pointer cleared between arguments every value is its option's own text or the next argument |
| ArgBinding.ValuesAreOwnIff | argparse.c:355-360 | the real parser binds every value as written if and only if no left-behind text meets a long option that needs a value |
| ArgBinding.ParseIsCleanIff | argparse.c:387-458 | on exactly these command lines it is the intended left-to-right reading |
| ArgBinding.StaleExample | argparse.c:355-360 | a command line on which it is not |
| ArgValues.StoreIsReplay | argparse.c:87-290 | the variables after a parse are the option occurrences replayed in order |
| ArgValues.ValueIsLastOccurrence | argparse.c:116-252 | a value variable holds its last occurrence's value, or what it held before |
| ArgValues.WalkIsMaxSuffix | argparse.c:99-108 | the clamped counter is the maximum over all suffixes of sets minus unsets |
| ArgValues.BooleanIsReflectedWalk | argparse.c:99-108 | after any successful parse a BOOLEAN that began at 0 holds this maximum |
| ArgValues.BitIsLastOccurrence | argparse.c:109-115 | after a successful parse each bit of a BIT variable is as its last occurrence left it, and untouched without one |
| PageWindow.AndBits | lib/linux/osdep_linux_mem.c:109-109 | the masking operation is the bitwise conjunction, for every bit |
| PageWindow.AlignedBase | lib/linux/osdep_linux_mem.c:109-110 | masking with the complement of page size minus one rounds down to a page |
| PageWindow.WindowCoversTable | lib/linux/osdep_linux_mem.c:107-137 | for every address, power-of-two page and size: base the largest page multiple not above, length the least covering one, no wrap-around |
| ReadFull.ReadFull | lib/linux/osdep_linux_smu_kernel_module.c:18-41 | success means exactly the next len bytes in order, failure a proper prefix, and it fails exactly if a read does; ends if interrupts are finite |
| PmTable.RyzenAccess.RequestTableVerAndSize | lib/api.c:121-197 | at most one message; version and size agree, also when the request failed; success needs a nonzero version |
| PmTable.RyzenAccess.RequestTableAddr | lib/api.c:199-252 | at most one message; 32- or 64-bit address by family; success needs a nonzero address |
| PmTable.RyzenAccess.RequestTransferTable | lib/api.c:254-300 | one to three transfer messages, another one exactly after a prerequisite rejection; the result translates the last response |
| PmTable.RyzenAccess.InitMemObj | lib/linux/osdep_linux_mem.c:107-137 | after success the window begins at a page and shows the whole table at the reported address; after a failure nothing is mapped; it fails exactly if the operating system refuses the device or the mapping |
| PmTable.RyzenAccess.CopyPmTable | lib/linux/osdep_linux_mem.c:166-187 | success copies exactly the requested bytes; on the mapped backend it fails exactly if the mapping is too small, with the driver exactly if the driver's table is too small or a read fails |
| PmTable.RyzenAccess.InitTable | lib/api.c:304-324 | ends; busy flag restored; at most 6 transfers; succeeds exactly if every message was answered with nonzero version and address and nothing was refused or unreadable; from no buffer, or on success, the handle is sound; over an old buffer a failure keeps it sound exactly if the size stayed; a version query that times out leaves version 0, the probe size and the old buffer, and reads in bounds exactly if that buffer has the probe size |
| PmTable.RyzenAccess.InitTableLocked | lib/api.c:326-402 | the messages are version, address, then transfers, each sent exactly if what came before was answered and granted; success: fresh buffer of table size holding the last copy; two transfers on the mapped backend if the table still starts with zero, none with the driver |
| PmTable.RyzenAccess.TransferIfStale | lib/api.c:439-453 | a transfer is requested, with its retries, exactly if the first float is zero or the first 24 bytes are unchanged; it fails exactly if the last of these messages did |
| PmTable.RyzenAccess.RefreshTable | lib/api.c:430-461 | ends; keeps the handle sound; at most 9 transfers; success: cache is the copy; failure on the mapped backend leaves the cache; over an existing buffer it succeeds exactly if a stale table was transferred and the copy could be read; success without transfer changed the prefix of a frozen source |
| PmTable.FirstIsZeroExact | lib/api.c:443-446 | the test on the four bytes holds exactly for the two words that are +0 and -0 as IEEE singles |
| PmTable.RyzenAccess.GetCorePower | lib/api.c:2382-2425 | any version and core: NAN, or four bytes inside the buffer |
| PmTable.ReadsInBoundsIff | lib/api.c:504-516 | the getters' check keeps all reads in the buffer if and only if table size does not exceed capacity |
| Setters.SkinTempSharing | lib/api.c:1166-1172 | two skin temperatures send one word exactly if their low 24 bits agree |
| Setters.Handle.DoAdjust | lib/api.c:463-479 | one request with the value as arg0; the result is 0 for success and one stated code for each other response |
| Setters.Handle.Set | lib/api.c:519-1553 | every request carries the value unchanged as arg0 (0 for a switch; for skin temperatures 256 times its low 24 bits) and zeros besides; unsupported exactly if no request was made, success exactly if the last request succeeded, a second request only on PSMU after a failed first, with the same argument |
| Setters.WireCarries | lib/api.c:1166-1187 | what arg0 says of the value, for each setting: 0, the value, or its low 24 bits in 1/256 degree |
| Setters.Handle.GetBiosIfVer | lib/api.c:82-95 | asks once; the version is the first result of the answer, and is kept only after a success |
| Setters.SuccessesExecuted | lib/api.c:463-498 | where flock works every call of a process that reports success and found its mailbox quiet was executed by the SMU, each for itself; on the driver no word of them was lost, and every response read from registers is the SMU's |
| MainOptions.TableIsRegular | main.c:271-321 | no name of the option table has =, and no negatable one begins its no- form |
| MainOptions.FindRow | main.c:271-321 | looking up a setting's name in the table finds that setting's row |
| MainOptions.FindLetter | main.c:271-321 | every setting's letter is its own, and looking it up finds that setting's row |
| MainPlan.VariablesTyped | main.c:256-269 | after any successful parse every variable is in its type's range or holds its marker |
| MainPlan.PlanExact | main.c:373-415 | the adjustments are exactly the selected settings with their words, each once, in the fixed order |
| MainPlan.OverclockingOrder | main.c:406-410 | overclocking is switched on before its clock and voltage are set, and off only after |
| MainPlan.LimitApplied | main.c:60-61 | for every command line: the last occurrence of a limit decides, is a numeral below 2^32, and is applied unless it is 2^32 - 1 |
| MainPlan.OffsetApplied | main.c:67-71 | for every command line: the last Curve Optimiser offset is applied as its low 32 bits, whatever it is |
| MainPlan.SwitchApplied | main.c:73-97 | for every command line: a switch is applied exactly if some tail of its occurrences has more sets than unsets |
| CommandLine.CommandLineRoundTrip | main.c:271-327 | any list of settings, each typed as --name=value, --name value, -cvalue, -c value (also with i in front, as in -iavalue), --switch or --no-switch, is parsed back to exactly these assignments, in order |
| CommandLine.OneSetting | main.c:373-415 | one typed setting, in any of these spellings, is the whole plan, with the word typed |
| CommandLine.MistakeFails | argparse.c:398-451 | after any correct beginning a stray word, an unknown name or letter, a value that is none of its option, or a missing value ends the parse with status 1, whatever follows |
| CommandLine.HelpEnds | argparse.c:560-566 | after any correct beginning -h or --help ends it with status 0, whatever follows |
| CommandLine.LeftBehindLimit | argparse.c:355-360 | for every limit and every word: after --info=word, the limit's name alone applies the word |
| Tool.Session.Adjust | main.c:34-97 | a setter is called exactly if its variable is set, and its failure makes the status -1 for good |
| Tool.Session.ApplyAll | main.c:373-415 | the sequence of macros carries out the plan, and the status is 0 exactly if every adjustment succeeded |
| Tool.AdjustAndShow | main.c:354-427 | with info the first request asks for the version; with info or dump the table is initialised before the adjustments, as far as answers and the operating system let it; then the blocks of the plan; then, exactly if the table was initialised and every adjustment succeeded, one refresh for a dump after a change and one for info, each of them exact; without info and dump nothing is monitored |
| Tool.PlanSent | main.c:373-415 | every request made for the plan carries the word of its setting |
| Tool.TypedWordSent | main.c:256-415 | from the command line to the SMU, for one setting in any spelling: every request made for a typed limit carries it, for an offset its 32-bit form, and nothing else is sent for the plan |
| Tool.GetSmu | lib/nb_smu_ops.c:274-346 | one test call unless memory is out, and a mailbox object exactly if its recorded response is success; on the driver, if the test was calm and no failure was noticed, that is the SMU's answer |
| Tool.InitRyzenadj | lib/api.c:16-61 | MP1 is tested if the family is known, the backend opens and memory suffices, PSMU only after a first recorded success; the library object exists exactly if both tests came back with success |
| Tool.RunTool | main.c:253-431 | the process takes no step for a bad or contradictory command line; otherwise it makes the tests of the initialisation, stops with -1 unless both come back with success, and else makes exactly the requests of AdjustAndShow, the status saying whether all adjustments succeeded; nothing is blamed on the operating system that it did not do; these are all its calls, each a different finished call of the machine, and where flock works each success with a quiet mailbox was executed |

## Left out

- FLOAT options, `--` flags given by user callbacks other than the help callback, and the `int` overflow of a BOOLEAN counter.
- Usage text, error strings, debug output, and the contents of the info table and the table dump; the requests they make are modelled.
- Sleeping and the back-off after 128 polls: time is the sequence of clock readings.
- A failing `clock_gettime`, which the code turns into time 0.
- `write_full`, `get_pm_table_size`, opening and closing of the backends, and `cpuid.c`: the family, the backend with the driver's table size, and how many allocations of the library's initialisation succeed are parameters; later allocations, mappings and reads succeed or fail as the operating system likes, and are counted.
- A driver that disappears in the middle of a run: every process keeps its backend, and flock works for it always or never.
- What a refusal from the driver's transaction interface says about the SMU: `SmuRawCmd` and `CopyResult` fix the code returned, but the library reports transport errors with the same codes.
- `set_per_core_oc_clk`, which the tool does not use, and all getters but one: they differ in constants only. Per-core arrays that overlap in the tables are not judged.
- Setters are one method over a table of routes instead of one function each; the adjustment macros are methods.
- Floating point: table words are byte patterns with a test for +0 or -0.
- What a single response means for a call that found a command pending, beyond the exact condition above; and running unlocked, beyond the counterexamples.
- Windows.
