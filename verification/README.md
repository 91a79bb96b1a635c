# Signals, locks and queues of the apue programs

A Dafny 4.11 model of the programs of this repository whose correctness depends on the order of
their own steps, and proofs about all their runs. `dafny verify dfyconfig.toml` checks everything.

## How the programs are modelled

Each program is a state machine. A state holds the program's globals, the place where each process or
thread stands, and what the kernel keeps for it. An event is one step of one process, the generation or
delivery of one signal, or an action of a child. An event that is not enabled changes nothing, so every
sequence of events is a run, and the theorems speak of every sequence. A statement such as `++sigcount`
or `(*ptr)++` is a load and a store, with interruptions between them. Calls that the source checks for
failure can fail at any time.

Next to each machine stands a class with the same data as mutable fields. Its methods take the steps of
the C functions in place and are proved to make exactly the transitions of the machine, step by step and
over whole runs. The byte-transfer loops are methods with loops over an array and file objects.

| file | what it models |
|---|---|
| `SignalMachine.dfy` | handler stack, signal mask and pending signals of a process |
| `SigQueued*.dfy` | `signals/sig_queued.c` |
| `SigSetjmp*.dfy` | `signals/sigsetjmp.c` |
| `SigPending*.dfy` | `signals/sigpending.c` |
| `Semantics*.dfy` | `signals/signal_semantics.c` and `signals/sigaction_semantics.c` |
| `SharedCounter.dfy` | `advanced_io/mmap.c` |
| `Fgets.dfy`, `MessageQueue*.dfy` | `interprocess_communication/sv_msq.c` |
| `LockHandshake.dfy` | `advanced_io/mandatory_lock.c` |
| `Transfer.dfy` | `advanced_io/nonblock_io.c`, `file_io/copy.c` |

Assumptions about the kernel:

- Signals follow sections 2.4.1 and 2.4.3 of XSH in POSIX.1-2017. A handler runs with the mask in force
  plus its own signal, and its return restores the mask from before. A handler that interrupts
  `sigsuspend` returns to the mask from before `sigsuspend`.
- `sigpending.c`: `sigprocmask` delivers at least one pending signal that it unblocks before it returns.
- `signal_semantics.c`, `sigaction_semantics.c`: a pending signal that is not blocked is delivered before
  the process takes another step. The other signal programs are proved without this assumption.
- `sv_msq.c`: `msgrcv` fails with EIDRM only in a receiver that sleeps when the queue is removed, a later
  call gets EINVAL, and a message sent to a sleeping receiver is handed over directly.
- `mandatory_lock.c`: where the system enforces record locks, a read of a file that another process has locked
  blocks, or fails at once if the file is open with O_NONBLOCK.
- `mmap.c`: int is 32 bits wide and wraps.

## What turned out

- `sig_queued.c`: the verdict "Signal is queued" is no proof of queueing. On a kernel that queues and on
  one that never does, it can be given exactly if SIGQUIT is not blocked at the start
  (`QueuedWithoutQueueing`): `sigsuspend` unblocks SIGQUIT inside the handler, so even a kernel that
  merges signals can have all four handled. The comment at lines 40-43 expects otherwise. Once `sig_quit`
  was entered, and with no signals from others, the verdict says exactly that no SIGQUIT was merged and
  none was left pending (`QueuedVerdict`). "Signal is NOT queued" is worth more: if pending signals are
  delivered before main's test, it is given only on a kernel that does not queue (`NotQueuedExactly`).
- `sig_queued.c`: that the verdict fits the final count holds in all runs exactly if SIGQUIT is blocked at
  the start (`FitsAlwaysExactly`). Else a SIGQUIT handled between main's tests of 2 and 4 can make it report
  a count of 2 as unknown; if none is, the verdict fits (`VerdictFitsCount`).
- `sigsetjmp.c`: line 58 compares the array `jmpbuf` with 0, which never holds. So `siglongjmp` can be
  called on an unfilled buffer exactly if SIGUSR1 is not blocked at the start (`WildJumpExactly`), and
  twice exactly if in addition the mask is restored (`SecondJumpExactly`). A guard that tests `canjump`
  cures both (`JumpSafety`).
- `signal_semantics.c`: "NOT prevent" can be printed exactly if the system does not block the signal or
  SIGUSR2 was blocked from the start (`NotPreventExactly`); "Prevent" can be printed, whatever the
  system does, exactly if SIGUSR2 was not blocked from the start (`PreventIsNoProof`). The second SIGUSR2
  can kill the program before it prints that verdict, exactly if the system resets the action, does not
  block during handlers, and SIGUSR2 was not blocked (`UnreliableExactly`).
- `mandatory_lock.c`: the child's lock attempt succeeds exactly if `waitpid` has failed by then
  (`LockAlwaysRefused`). If it does not fail, the last line tells whether the system enforces the lock
  (`MandatoryVerdict`).
- `sv_msq.c`: the consumer can end with "msgrcv over" exactly if it sleeps in `msgrcv` at the removal
  (`CleanExactlyIfAsleep`); what it prints adds up to the input exactly if the input has no NUL
  (`CleanShutdown`); the threads can block each other exactly if a message exceeds the whole queue
  (`DeadlockExactly`).
- `sig_queued.c:93,97` and `sigsetjmp.c:84,88` write `act_flags`; the field meant is `sa_flags`.

## Model

| member | source | states |
|---|---|---|
| `SignalMachine.EnterThenReturn` | signals/sig_queued.c:70-82 | a handler's normal return undoes its delivery and leaves the masks of all suspended frames alone |
| `SigQueuedTheorems.MaskDiscipline` | signals/sig_queued.c:118-149 | after TELL_WAIT main always runs under the saved mask plus SIGUSR1 and SIGUSR2; the waiting handler runs under that plus SIGQUIT, under the empty mask while asleep, and under the saved mask after line 145 |
| `SigQueuedTheorems.BoundedNesting` | signals/sig_queued.c:70-82 | however many signals arrive there are at most two sig_quit frames, one of them lowest, and one sig_usr frame per signal |
| `SigQueuedTheorems.NoLostIncrement` | signals/sig_queued.c:70-77 | two frames are never inside the increment together, sigcount is the number of entries past line 72, WAIT_CHILD is entered at most once |
| `SigQueuedTheorems.NoLostWakeup` | signals/sig_queued.c:139-143 | asleep in sigsuspend, sigflag is clear and every SIGUSR1 or SIGUSR2 ever generated is pending and deliverable |
| `SigQueuedTheorems.WakeupConserved` | signals/sig_queued.c:79-143 | the child's TELL_PARENT is at any moment in exactly one place: pending, with a sig_usr frame, in sigflag, or consumed |
| `SigQueuedTheorems.WaitsForChild` | signals/sig_queued.c:38-149 | WAIT_CHILD does not leave its loop before TELL_PARENT, whatever SIGQUITs arrive |
| `SigQueuedTheorems.FinalReadAmongOthers` | signals/sig_queued.c:38-63 | the same account of all SIGQUITs if others may send some too: 4 + theirs = counted + merged + pending, and the child's SIGUSR2 is used up |
| `SigQueuedTheorems.FinalRead` | signals/sig_queued.c:38-63 | with no signals from others, once sig_quit was entered main reads sigcount only after all four SIGQUITs were sent; 4 = counted + merged + pending, and 1 <= sigcount <= 4 |
| `SigQueuedTheorems.QueuedVerdict` | signals/sig_queued.c:57-64 | once sig_quit was entered, and with no signals from others, the test of line 59 gives "Signal is queued" if and only if no SIGQUIT was merged and none is pending |
| `SigQueuedVerdicts.QueuedWithoutQueueing` | signals/sig_queued.c:40-142 | that verdict can be given if and only if SIGQUIT is not blocked at the start, on a kernel that queues and on one that never does, with and without signals from others |
| `SigQueuedVerdicts.VerdictExactly` | signals/sig_queued.c:54-64 | each verdict is given if and only if the test for it finds its count, and the process ends without one if and only if a call fails |
| `SigQueuedVerdicts.VerdictFitsCount` | signals/sig_queued.c:57-64 | unless a SIGQUIT is delivered between the tests, a verdict is "NOT queued" if and only if sigcount is 2, "queued" if and only if it is 4, and otherwise reports sigcount |
| `SigQueuedVerdicts.FitsAlwaysExactly` | signals/sig_queued.c:57-64 | without signals from others the verdict always fits the final count if and only if SIGQUIT is blocked at the start |
| `SigQueuedVerdicts.VerdictsExactly` | signals/sig_queued.c:38-149 | the verdicts possible without signals from others: "unknown 0" always; "NOT queued", "queued" and "unknown" 1 to 4 if and only if SIGQUIT is not blocked |
| `SigQueuedVerdicts.NotQueuedVerdict` | signals/sig_queued.c:57-58 | "NOT queued" means that merged and pending SIGQUITs are two |
| `SigQueuedVerdicts.NotQueuedExactly` | signals/sig_queued.c:38-149 | with nothing left pending, "NOT queued" can be given if and only if the kernel does not queue and SIGQUIT is not blocked at the start |
| `SigQueuedTheorems.InternalStepsDecrease` | signals/sig_queued.c:54-149 | every step and every delivery decreases one measure |
| `SigQueuedTheorems.Termination` | signals/sig_queued.c:54-149 | a run has at most 20 steps for each signal sent, and 6 more |
| `SigQueuedTheorems.StuckOnlyWhileNotTold` | signals/sig_queued.c:139-143 | the process is stuck if and only if it sleeps in WAIT_CHILD with nothing pending, and then TELL_PARENT has not happened |
| `SigQueuedProofs.StepKeepsInv` | signals/sig_queued.c:34-149 | every event keeps stack shape, counting, conservation of SIGQUITs and the wake-up invariant |
| `SigQueuedToken.StepKeepsToken` | signals/sig_queued.c:79-143 | every event keeps the wake-up token in exactly one place |
| `SigQueuedProgram.Parent.RunMain` | signals/sig_queued.c:32-127 | one step of main or TELL_WAIT, on the fields |
| `SigQueuedProgram.Parent.SigQuit` | signals/sig_queued.c:70-77 | one step of sig_quit |
| `SigQueuedProgram.Parent.Increment` | signals/sig_queued.c:72 | one half of the increment |
| `SigQueuedProgram.Parent.WaitChild` | signals/sig_queued.c:139-149 | one step of WAIT_CHILD; sigsuspend swaps the mask and sleeps at once |
| `SigQueuedProgram.Parent.SigUsr` | signals/sig_queued.c:79-82 | one step of sig_usr |
| `SigQueuedProgram.Parent.Run` | signals/sig_queued.c:23-149 | a whole run agrees with the machine and keeps nesting, count and mask as proved |
| `SigSetjmp.StepKeepsInv` | signals/sigsetjmp.c:27-73 | every event keeps at most two frames for different signals above main's mask, and the relation of buffer, flag and jumps |
| `SigSetjmp.MaskAfterJump` | signals/sigsetjmp.c:36-73 | at "ending main" the mask is the one of sigsetjmp if it was saved, else exactly the signals of the abandoned handlers, SIGUSR1 among them, are added |
| `SigSetjmp.JumpSafety` | signals/sigsetjmp.c:36-73 | with a guard that tests canjump no jump uses an unfilled buffer and there is at most one, for any signals |
| `SigSetjmp.WildJumpExactly` | signals/sigsetjmp.c:58-72 | as coded, a jump with an unfilled buffer is possible if and only if SIGUSR1 is not blocked at the start |
| `SigSetjmp.SecondJumpExactly` | signals/sigsetjmp.c:36-72 | as coded, a second jump is possible if and only if the mask is saved and SIGUSR1 is not blocked at the start |
| `SigSetjmp.JumpExactly` | signals/sigsetjmp.c:36-73 | with either guard a jump can happen if and only if SIGUSR1 is not blocked at the start |
| `SigSetjmpEndings.DeliveryIsCaught` | signals/sigsetjmp.c:27-34 | once its handler is installed, a delivered signal leaves the process alive in that handler, whose return resumes the interrupted code under its mask |
| `SigSetjmpEndings.AlarmPasses` | signals/sigsetjmp.c:49-52 | sig_alrm leaves no trace, whatever it interrupts |
| `SigSetjmpEndings.GuardedSignalPasses` | signals/sigsetjmp.c:58-59 | with the guard that tests canjump, neither does a SIGUSR1 that finds the flag clear |
| `SigSetjmpEndings.EndsExactly` | signals/sigsetjmp.c:27-73 | the process ends if and only if a call fails, a signal comes before its handler is installed, siglongjmp is called before sigsetjmp, or main returns |
| `SigSetjmpEndings.EndingPrinted` | signals/sigsetjmp.c:36-40 | main returns only after "ending main", which is printed at most once for a jump |
| `SigSetjmpEndings.BothAbandonedExactly` | signals/sigsetjmp.c:36-73 | a jump can abandon both handlers at once if and only if both signals are free at the start |
| `SigSetjmpEndings.StuckOnlyInPause` | signals/sigsetjmp.c:43-44 | the process is stuck if and only if it sits in pause with nothing deliverable |
| `SigSetjmpEndings.Termination` | signals/sigsetjmp.c:27-73 | a run has at most 7 steps for each signal sent, and 7 more |
| `SigSetjmpProgram.Program.RunMain` | signals/sigsetjmp.c:27-46 | one step of main |
| `SigSetjmpProgram.Program.SigUsr1` | signals/sigsetjmp.c:54-73 | one step of sig_usr1 |
| `SigSetjmpProgram.Program.Siglongjmp` | signals/sigsetjmp.c:72 | the jump drops all handler frames and restores the mask only if it was saved |
| `SigSetjmpProgram.Program.SigAlrm` | signals/sigsetjmp.c:49-52 | one step of sig_alrm |
| `SigSetjmpProgram.Program.Run` | signals/sigsetjmp.c:27-73 | a whole run agrees with the machine; jump safety with the flag's guard |
| `SigPending.StepKeepsInv` | signals/sigpending.c:28-73 | every event keeps mask, disposition and output in step |
| `SigPending.NoCatchInWindow` | signals/sigpending.c:47-68 | SIGQUIT is never caught in the blocked window, and once it was caught the default action is back when main runs |
| `SigPending.OutputLanguage` | signals/sigpending.c:28-73 | every output is one of nine words (four if SIGQUIT starts blocked): one catch at most, and exactly one between "is pending" and "unblocked" |
| `SigPendingOutputs.OutputsExactly` | signals/sigpending.c:28-73 | these words are exactly the outputs of runs |
| `SigPendingOutputs.LongestOutput` | signals/sigpending.c:42-69 | the output pending, catch, unblocked occurs |
| `SigPendingOutputs.EndsExactly` | signals/sigpending.c:28-73 | the process ends if and only if a call fails, main returns, or a SIGQUIT arrives before the handler is installed or after it has caught one |
| `SigPendingOutputs.Termination` | signals/sigpending.c:28-73 | a run has at most 4 steps for each SIGQUIT, and 10 more, and nothing but its end stops it |
| `SigPending.Program.RunMain` | signals/sigpending.c:42-73 | one step of main |
| `SigPending.Program.SigQuit` | signals/sigpending.c:28-36 | one step of sig_quit |
| `SigPending.Program.Execute` | signals/sigpending.c:28-73 | a whole run agrees with the machine and prints one of the words |
| `SemanticsTheorems.ResetVerdict` | signals/signal_semantics.c:47-61 | "Reset" is the verdict if and only if the system resets the action and SIGUSR1 was not blocked |
| `SemanticsTheorems.PreventVerdict` | signals/signal_semantics.c:19-93 | "NOT prevent" is printed only if the system does not block in handlers, or SIGUSR2 was blocked |
| `SemanticsTheorems.RestartVerdict` | signals/sigaction_semantics.c:130-169 | each "NOT automatically restart" is printed only for an action that does not restart and is not blocked |
| `SemanticsTheorems.SignalSemantics` | signals/signal_semantics.c:47-178 | all verdicts of that program against the system's three properties and the mask at the start |
| `SemanticsTheorems.SigactionSemantics` | signals/sigaction_semantics.c:14-299 | what POSIX fixes for the flags used is never contradicted, and with SA_RESTART the last two tests always report a restart |
| `SemanticsTheorems.NotPreventExactly` | signals/signal_semantics.c:19-93 | "NOT prevent" can be printed if and only if the system does not block or SIGUSR2 was blocked |
| `SemanticsTheorems.PreventIsNoProof` | signals/signal_semantics.c:19-93 | whatever the system does, "Prevent" can be printed if and only if SIGUSR2 is not blocked at the start |
| `SemanticsTheorems.NotRestartExactly` | signals/sigaction_semantics.c:130-299 | each read test can report no restart if and only if its action does not restart and its signal is not blocked |
| `SemanticsEndings.VerdictsGiven` | signals/signal_semantics.c:47-178 | past each test its verdict is there: reset, if and only if the system resets and SIGUSR1 was free; prevent or not; one for each read test |
| `SemanticsEndings.DefaultRestored` | signals/signal_semantics.c:55-93 | between its two tests SIGUSR1 has its default action |
| `SemanticsEndings.NeverStuck` | signals/signal_semantics.c:39-178 | before its end the program is never stuck, whichever calls fail |
| `SemanticsEndings.FinishedReachable` | signals/signal_semantics.c:39-178 | on every system some run gives all verdicts |
| `SemanticsEndings.EndsExactly` | signals/signal_semantics.c:19-178 | the program ends early if and only if a call fails or a second SIGUSR2 finds the action still reset |
| `SemanticsEndings.Completes` | signals/signal_semantics.c:39-178 | with reliable signals, a run without failing calls survives and stops only with all verdicts given |
| `SemanticsEndings.UnreliableExactly` | signals/signal_semantics.c:19-27 | the second SIGUSR2 can kill the program if and only if the system resets, does not block, and SIGUSR2 was free |
| `SemanticsEndings.Termination` | signals/signal_semantics.c:39-178 | every run is finite: at most 34 steps for each read test, and 43 more |
| `SemanticsTheorems.SigactionRestartExactly` | signals/sigaction_semantics.c:130-299 | the first two read tests can report no restart if and only if their signal is free, the two with SA_RESTART if and only if besides the system lacks it |
| `SemanticsProofs.StepKeepsInv` | signals/signal_semantics.c:39-178 | every event keeps the order of tests, children and signals and the three verdict invariants |
| `SemanticsProgram.Program.ResetTest` | signals/signal_semantics.c:48-61 | one step of the test of resetting |
| `SemanticsProgram.Program.BlockTest` | signals/signal_semantics.c:64-93 | one step of the test of blocking |
| `SemanticsProgram.Program.ReadTest` | signals/signal_semantics.c:96-136 | one step of a read test |
| `SemanticsProgram.Program.SigUsr2` | signals/signal_semantics.c:19-32 | one step of sig_usr2 |
| `SemanticsProgram.Program.Run` | signals/signal_semantics.c:39-178 | a whole run agrees with the machine; reset and prevent verdicts as proved |
| `SharedCounter.MutualExclusion` | advanced_io/mmap.c:49-73 | semaphore value plus processes inside, those that failed in sem_post included, is 1 |
| `SharedCounter.StepRefines` | advanced_io/mmap.c:50-72 | each step is invisible or one atomic fetch-and-add, and the shared int stays the atomic counter, one ahead between store and print |
| `SharedCounter.AtomicRefinement` | advanced_io/mmap.c:49-73 | output and memory are those of a sequential counter: the values printed are 0, 1, 2, ... in order, whichever calls fail, and the shared int is that counter whenever the semaphore is free |
| `SharedCounter.StuckExactly` | advanced_io/mmap.c:51-71 | the processes are stuck before the end if and only if one failed in sem_post and the other waits |
| `SharedCounter.StuckPossibleExactly` | advanced_io/mmap.c:50-72 | a failed sem_post can leave the other process waiting for ever if and only if nloop is positive |
| `SharedCounter.FailuresExactly` | advanced_io/mmap.c:51-71 | a process gives up before the critical section if and only if its sem_wait failed, inside if and only if its sem_post failed |
| `SharedCounter.ProgressAndFinalValue` | advanced_io/mmap.c:28-72 | without failures every run is finite, ends with both loops done, the counter at 2 * max(0, nloop), nloop lines each |
| `SharedCounter.ValuesIncrease` | advanced_io/mmap.c:50-72 | while 2 * nloop is an int the values are the line numbers, so they increase strictly |
| `SharedCounter.Mapping.Turn` | advanced_io/mmap.c:50-72 | one step of a loop on the shared fields |
| `SharedCounter.Mapping.Run` | advanced_io/mmap.c:50-72 | a whole run agrees with the machine and prints 0, 1, 2, ... |
| `Fgets.ChunksExactly` | interprocess_communication/sv_msq.c:83 | a list of strings is what the fgets loop reads if and only if it concatenates to the input and each string is what one fgets can return |
| `Fgets.TextsExactly` | interprocess_communication/sv_msq.c:83-86 | the texts sent concatenate to what was read if and only if that has no NUL |
| `MessageQueue.StepKeepsInv` | interprocess_communication/sv_msq.c:32-95 | every step keeps the flow of messages and the cutting of the input |
| `MessageQueueTheorems.Conservation` | interprocess_communication/sv_msq.c:32-95 | sent = received ++ queued before the removal, received ++ lost after it |
| `MessageQueueTheorems.CleanShutdown` | interprocess_communication/sv_msq.c:32-95 | "msgrcv over" means everything sent was received and printed, and equals the input if and only if it has no NUL |
| `MessageQueueTheorems.PrintedTexts` | interprocess_communication/sv_msq.c:32-90 | the printed texts are always the first of those cut from the input |
| `MessageQueueTheorems.PrintsPrefix` | interprocess_communication/sv_msq.c:32-90 | without NUL the output is always a prefix of the input |
| `MessageQueueTheorems.BufferFit` | interprocess_communication/sv_msq.c:10-86 | every message with its NUL fits MSGMAXSZ |
| `MessageQueueTheorems.QueueLimit` | interprocess_communication/sv_msq.c:86 | the texts in the queue, each with its NUL, never take more than the queue holds, and every message sent fits it |
| `MessageQueueTheorems.SendExactly` | interprocess_communication/sv_msq.c:86 | msgsnd goes on if and only if the text and its NUL fit behind what is queued |
| `MessageQueueTheorems.ExitsExactly` | interprocess_communication/sv_msq.c:32-95 | the program exits early if and only if a call other than fgets failed, a msgrcv after the removal included |
| `MessageQueueTheorems.CleanExactlyIfAsleep` | interprocess_communication/sv_msq.c:36-92 | the consumer can end cleanly if and only if it sleeps at the removal |
| `MessageQueueTheorems.DeadlockExactly` | interprocess_communication/sv_msq.c:32-86 | the threads can block each other if and only if some message exceeds the queue |
| `MessageQueueTheorems.CompleteExactly` | interprocess_communication/sv_msq.c:32-97 | the program can print its whole input and return if and only if no message exceeds the queue |
| `MessageQueueTheorems.NoDeadlock` | interprocess_communication/sv_msq.c:32-86 | a queue that holds one maximal message never deadlocks |
| `MessageQueueTheorems.Termination` | interprocess_communication/sv_msq.c:32-97 | every run is finite: at most 6 steps a byte of input, and 7 more |
| `MessageQueueProgram.Process.RunMain` | interprocess_communication/sv_msq.c:83-97 | one step of main |
| `MessageQueueProgram.Process.MsgSnd` | interprocess_communication/sv_msq.c:86 | a message is queued, or handed to a sleeping receiver |
| `MessageQueueProgram.Process.MsgCtlRemove` | interprocess_communication/sv_msq.c:92 | the removal drops the queue and wakes a sleeping receiver with EIDRM |
| `MessageQueueProgram.Process.ThrFunc` | interprocess_communication/sv_msq.c:24-44 | one step of the consumer |
| `MessageQueueProgram.Process.Run` | interprocess_communication/sv_msq.c:19-100 | a whole run agrees with the machine; a clean end has printed all that was sent |
| `LockHandshake.LockAlwaysRefused` | advanced_io/mandatory_lock.c:56-95 | a told child has its parent holding the lock and waiting, unless waitpid failed; its lock attempt succeeds if and only if waitpid has failed |
| `LockHandshake.ReadLockUnreachable` | advanced_io/mandatory_lock.c:69-94 | in every run where waitpid does not fail the read lock never succeeds |
| `LockHandshake.ReadLockAfterFailure` | advanced_io/mandatory_lock.c:69-94 | with a failing waitpid it can |
| `LockHandshake.EofUnreachable` | advanced_io/mandatory_lock.c:112-145 | the child's read never returns 0, since it holds a write end itself |
| `LockHandshake.OrphanStaysBlocked` | advanced_io/mandatory_lock.c:62-145 | if the parent exits before TELL_CHILD, the child stays in its read for ever unless the read fails |
| `LockHandshake.StuckExactly` | advanced_io/mandatory_lock.c:53-110 | the pair is stuck before both end if and only if that has happened |
| `LockHandshake.FailuresExactly` | advanced_io/mandatory_lock.c:53-100 | each process ends with an error if and only if one of its own calls failed, the child with which error by which call |
| `LockHandshake.MandatoryVerdict` | advanced_io/mandatory_lock.c:90-107 | unless waitpid fails, a child that gets to its end was refused the lock, and reports a failed read if and only if the system enforces the lock or the read failed by itself; else it has read "ab" |
| `LockHandshake.Completes` | advanced_io/mandatory_lock.c:53-110 | without a failing call the pair stops only when both have ended normally |
| `LockHandshake.NormalEnd` | advanced_io/mandatory_lock.c:53-110 | and such a run exists on every system |
| `LockHandshake.Termination` | advanced_io/mandatory_lock.c:53-110 | every run has at most eleven steps |
| `LockHandshake.Processes.RunParent` | advanced_io/mandatory_lock.c:53-130 | one step of the parent |
| `LockHandshake.Processes.RunChild` | advanced_io/mandatory_lock.c:73-107 | one step of the child |
| `LockHandshake.Processes.WaitParent` | advanced_io/mandatory_lock.c:132-145 | the three outcomes of the child's pipe read |
| `LockHandshake.Processes.ReadFile` | advanced_io/mandatory_lock.c:103-107 | the last read of the child, which does not wait for the lock |
| `LockHandshake.Processes.Run` | advanced_io/mandatory_lock.c:53-145 | a whole run agrees with the machine |
| `Transfer.WriteAll` | advanced_io/nonblock_io.c:36-46 | for any short, zero or failing writes the output is exactly the part of the buffer before ptr, and all of it when the loop ends |
| `Transfer.DrainBound` | advanced_io/nonblock_io.c:37-46 | with at most B failures in a row the loop needs at most (B + 1) * n calls |
| `Transfer.DrainBoundIsTight` | advanced_io/nonblock_io.c:37-46 | there are answers that need that many |
| `Transfer.WriteAnswersExactly` | advanced_io/nonblock_io.c:39 | the answers modelled are all that write may return: an error or any part of what is asked |
| `Transfer.ReadAnswersExactly` | file_io/copy.c:58 | the same for read, which returns 0 exactly at the end of the file |
| `Transfer.File.Read` | file_io/copy.c:58 | read fills the buffer with the next bytes of the file, never past its end |
| `Transfer.File.Write` | advanced_io/nonblock_io.c:39 | write appends what the kernel takes, never more than asked |
| `Transfer.Copy` | file_io/copy.c:35-67 | the output is a prefix of the input after every write and at every exit, and all of it on success; it fails if and only if a read it reaches fails or a write it reaches takes less than was read; if both names are one file, it ends up empty |

## Left out

- Command lines, usage messages, `perror` and the format of prints; only prints whose order or value matters are kept.
- Real time: `sleep` and `alarm` may take any time, except that a `sleep` nobody interrupts returns 0.
- `sig_queued.c`: signals before the end of TELL_WAIT, signals sent to the child, SIGCHLD, and the unused TELL_CHILD and WAIT_PARENT (lines 129-132 and 151-161).
- The width of `sigcount`: it is an unbounded integer here, so the theorems on it hold up to INT_MAX signals.
- `sigaction_semantics.c`, `signal_semantics.c`: pending signals are not queued, and only the children of the program send signals.
- The branch "UNKNOWN whether reset" (signal_semantics.c:59-61), which needs a third handler.
- `mandatory_lock.c`: the file setup before TELL_WAIT, the pipe fd2, locks held by other programs, and the error numbers printed.
- `sv_msq.c`: `malloc`, `ftok`, `msgget` and `pthread_create` of main, other users of the queue, and limits on the number of queued messages.
- `copy.c`: the SYNC variants, and other programs changing the input during the copy.
- `record_lock.c`, `unlink.c`, `system.c`, the thread demos and the display programs: their behaviour is the kernel's or a library's.
- Transfer.WriteAll: a run is cut off when its list of answers ends, so that unbounded failure is covered by every finite part of it.
