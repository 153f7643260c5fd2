# Verified model of the Fargate custom executor driver

The driver implements the stages of GitLab Runner's custom executor. `prepare` starts an AWS Fargate
task, records its ARN and a private key in a metadata file, waits for the task and records its address;
`run` reads that file and executes a script on the task over SSH; `cleanup` reads the file, stops the
task and removes the file. Each stage is a process of its own, and any call, write or connection can
fail, be cancelled, or be cut short by the death of the process.

The project models these stages and proves what they guarantee together.

- `protocol.dfy` gives each stage as an automaton that waits for one answer at a time, and says which
  answers the cluster and the file store may give and what they leave behind (`Effect`): a failed write
  leaves the old contents or any prefix of the new ones, a failed StopTask or RunTask may have taken
  effect, a call on a cancelled context fails.
- `traces.dfy` writes the complete runs of the three stages out, call by call, and proves that the automata
  make exactly these.
- `system.dfy` lets any number of jobs interleave with failures, cancellations, deaths of processes
  and the cluster's own moves. `orphans.dfy`, `losses.dfy`, `isolation.dfy`, `lifecycle.dfy`,
  `cancellation.dfy` and `convergence.dfy` hold the main results about it; `compensation.dfy` and
  `exitcodes.dfy` are about all complete runs of one stage.
- `world.dfy` and `stages.dfy` hold the metadata manager and the commands as classes whose methods
  call the outside step by step. Each `CustomExecute` is proved to be a complete run of its stage's
  automaton. `refinement.dfy` proves that such a run, with the other jobs, the cluster and signals
  going on between its calls, is an execution of the interleaved system, and that all executions
  come about in this way; `commands.dfy` applies the results above to the commands themselves.
  `register.dfy` is the store seen as one register.
- `decimal.dfy`, `paths.dfy`, `identity.dfy`, `runner.dfy` and `sites.dfy` go from environment variables to the
  metadata file, which is what the separation of jobs rests on, and to the exit status;
  `exitcodes.dfy` puts the SSH and AWS layers, the stages and the process together.
- `session.dfy` and `sshexecutor.dfy` are the SSH layer, `aws.dfy` is the adapter's pointer-sensitive
  environment override, `cli.dfy` the command tree.

What the code does where one might expect something else, each proved:

- A live task is lost in exactly six situations (`Orphans.Loss`); none is a step of a cleanup, and each
  of them does occur.
- A negative pipeline ID, or a token with a slash, can select another job's file. `Identity.SameFile`
  says exactly when, for arbitrary tokens, URLs, IDs and directories.
- Nothing in the driver creates a `BuildFailureError`, so unless a library does, a failing script ends
  the process with the system failure code. If the build failure code cannot be parsed, a failing
  process ends with 0.
- After a delivered signal, `ExecuteScript` returns nil while the script is still running, and its
  goroutine never finishes its send. Without a cancellation neither can happen.
- With more than one environment variable, every injected entry denotes the pair visited last. A loop
  with variables of its own for each iteration would inject them all.

An encoder, a digest and the outcomes of library calls are parameters or arbitrary values. The encoder
must decode what it encoded, and must read a proper prefix of an encoding as the same record or not at
all (the JSON encoder's final newline may be missing). The digest must give 64 hexadecimal digits and
tell apart the long IDs in play.

## Model

| member | source | states |
|---|---|---|
| `Orphans.NoSilentOrphan` | cmd/fargate/commands/custom/prepare.go:61-103 | at the end of every interleaving of any jobs, a live task is held by the prepare that launched it or named by its job's decodable file, if and only if none of six loss events happened to it |
| `Orphans.LostStaysLost` | task/metadata.go:64-81 | once neither a process nor the job's file knows the ARN, no later stage of any job ever learns it again |
| `Losses.EveryLossHappens` | cmd/fargate/commands/custom/prepare.go:74-102 | the list of losses is minimal: each one ends some behaviour of any valid site with a job, if prepare's records can be encoded and an empty file is no record |
| `System.StepKeepsInv` | cmd/fargate/commands/custom/prepare.go:61-103 | every step of every job keeps: the file names a task of its own job with that task's key, the process's ARN and the file agree at each point, and the record is removed only after its task was stopped |
| `System.OthersUnaffected` | cmd/fargate/commands/custom/cleanup.go:59-87 | no step about one job changes the file, tasks, process or context of another |
| `System.WriteLeaves` | task/metadata.go:73-76 | whatever a failed or interrupted write leaves decodes to the old record, to nothing, or to the new record |
| `Isolation.JobRunsAlone` | task/metadata.go:52-61 | the steps about one job in any interleaved behaviour, with what that job sees, are a behaviour of that job alone |
| `Isolation.StepInView` | cmd/fargate/commands/custom/prepare.go:61-103 | a step about a job needs nothing but the job's own file and tasks, and no job sees another job's steps |
| `Lifecycle.CredentialsAgree` | cmd/fargate/commands/custom/run.go:145-171 | from a successful prepare to the next prepare or cleanup, every connection goes to the address of the task started, with the private half of the pair whose public half was injected into it, to port 22 when none is configured |
| `Lifecycle.PairIsGenerated` | cmd/fargate/commands/custom/prepare.go:69-74 | the pair that is injected and recorded is the one the key factory returned in the same run |
| `Compensation.PrepareCompensates` | cmd/fargate/commands/custom/prepare.go:74-100 | once an ARN was yielded, prepare fails iff StopTask was attempted exactly once, with that ARN, as the last call; without one it never is; the error carries another call's failure |
| `Compensation.StopOutcomeIsDropped` | cmd/fargate/commands/custom/prepare.go:150-164 | prepare returns the same error whatever the compensating StopTask answers |
| `Cancellation.CancelledWaitStaysRecoverable` | cmd/fargate/commands/custom/prepare.go:88-92 | after a cancellation during the wait, until another stage starts, prepare can only fail or die, its StopTask cannot stop the task, and the file keeps naming it |
| `Convergence.CancelledWaitCanBeCleaned` | internal/signal/termination_handler.go:34-43 | from there a cleanup process, with its own context, can stop the task and remove the record |
| `Convergence.CleanupLosesNothing` | cmd/fargate/commands/custom/cleanup.go:68-84 | no step of a cleanup, whether it succeeds, fails or dies, loses a task; a live recoverable task stays recoverable |
| `Convergence.CleanupConverges` | cmd/fargate/commands/custom/cleanup.go:59-87 | repeated cleanup reaches "task stopped, record absent" within eight moves per failure and eight more, whatever other jobs do |
| `Convergence.CleanupCanFinish` | cmd/fargate/commands/custom/cleanup.go:59-87 | from any recoverable state between stages some execution without failures cleans up |
| `Refinement.CommandIsExecution` | cmd/fargate/commands/custom/custom.go:18-25 | what a process does, up to any of its calls and with anything the system allows between them, is an execution of the interleaved system; its own moves are exactly the answers to its calls |
| `Refinement.ExecutionIsCommand` | cmd/fargate/commands/custom/custom.go:18-25 | and every execution in which the job's process only has its calls answered comes about in this way |
| `Commands.PrepareCanSucceed` | cmd/fargate/commands/custom/prepare.go:61-103 | among them are successful prepares, in every state in which a prepare has just been started |
| `Commands.NoOrphanAfter` | cmd/fargate/commands/custom/prepare.go:61-103 | after a command executed in any reachable state, every live task is held or recoverable iff it was not lost |
| `Commands.SuccessPrepares` | cmd/fargate/commands/custom/prepare.go:94-103 | when prepare has succeeded, the job's file holds the full record of the task that this prepare launched, with its address and the private half of the key injected into it |
| `Commands.FailureLeaves` | cmd/fargate/commands/custom/prepare.go:74-100 | when prepare has failed and its task still lives, then StopTask failed, and the file names the task unless the error says that a record could not be written |
| `Commands.RunConnects` | cmd/fargate/commands/custom/run.go:145-171 | each connection a run command makes to a prepared job goes to the prepared task, on the configured port or 22, with its key, and sends the script that was read |
| `Commands.SuccessCleans` | cmd/fargate/commands/custom/cleanup.go:59-87 | when cleanup has succeeded, the task it stopped is stopped and the record is gone |
| `Commands.ExecutePrepare` | cmd/fargate/commands/custom/prepare.go:61-103 | the command itself: exactly the written-out calls; with whatever goes on between them, no live task unaccounted for, success prepares the job, failure names why a task is left behind |
| `Commands.ExecuteRun` | cmd/fargate/commands/custom/run.go:76-105 | the command itself: exactly the written-out calls; after a prepare and until another stage starts it connects to the prepared task only, with the script it read |
| `Commands.ExecuteCleanup` | cmd/fargate/commands/custom/cleanup.go:59-87 | the command itself: exactly the written-out calls; success means stopped and removed |
| `Traces.PrepareMakes` | cmd/fargate/commands/custom/prepare.go:61-103 | a sequence of calls is one of prepare's iff it is the written-out one, up to the first fault, then StopTask if an ARN is known; success iff all seven calls went well; otherwise the error names the step and carries what was wrong there |
| `Traces.RunMakes` | cmd/fargate/commands/custom/run.go:76-105 | the same for run's four calls |
| `Traces.CleanupMakes` | cmd/fargate/commands/custom/cleanup.go:59-87 | the same for cleanup's six calls |
| `Traces.ScriptIsSent` | cmd/fargate/commands/custom/run.go:86-98 | the script sent over SSH is the one read first, to the address and with the key of the record that was read |
| `Traces.RunSucceeds` | cmd/fargate/commands/custom/run.go:76-105 | run succeeds iff it came to its connection and that reported success; otherwise its error carries the last call's fault |
| `Traces.CleanupSucceeds` | cmd/fargate/commands/custom/cleanup.go:59-87 | cleanup succeeds iff it came to the removal and that succeeded; otherwise its error carries the last call's fault |
| `Stages.PrepareCommand.CustomExecute` | cmd/fargate/commands/custom/prepare.go:61-103 | the calls made, in order and with their arguments, are a complete run of prepare's automaton ending with the returned error |
| `Stages.CleanupCommand.CustomExecute` | cmd/fargate/commands/custom/cleanup.go:59-87 | the same for cleanup: read, stop, and only then remove |
| `Stages.RunCommand.CustomExecute` | cmd/fargate/commands/custom/run.go:76-105 | the same for run; with fewer than two arguments no call is made and the error says so |
| `Stages.MetadataManager.Persist` | task/metadata.go:64-81 | one write of the encoded record, or none when it cannot be encoded; a step of the register: holds the data on success; old, damaged, gone or new on failure |
| `Stages.MetadataManager.Get` | task/metadata.go:87-110 | success only with what the register holds; every failure of Exists, ReadFile or Decode reported as such, with nothing changed |
| `Stages.MetadataManager.Clear` | task/metadata.go:125-141 | success only if the record was there and is gone |
| `Register.GetReturnsLastPersist` | task/metadata.go:87-110 | over every history of Persist, Get and Clear with failed writes and vanishing files, a successful Get returns the last write that took, which is the last successful Persist unless a later one failed after storing its data |
| `Register.PersistIsDurable` | task/metadata.go:64-81 | after a successful Persist the register holds its data until the next write, Clear or loss of the file, whatever Gets and failed Clears come between |
| `Identity.LongIdCollisions` | task/filename.go:18-23 | exactly when two jobs have the same long ID, for arbitrary URLs and IDs of any sign |
| `Identity.LongIdIsInjective` | task/filename.go:18-23 | with non-negative pipeline IDs the long ID determines URL, pipeline and job |
| `Identity.NegativePipelineCollides` | task/filename.go:18-23 | a concrete collision when a pipeline ID is negative |
| `Identity.FilenameCollisions` | task/filename.go:17-25 | two file names are equal iff the tokens and the digests are |
| `Paths.CleanWalks` | task/metadata.go:83-85 | cleaning a path walks it part by part: empty parts and "." stay, ".." goes up but not above the root, any other part goes down |
| `Paths.EmptyPartsVanish` | task/metadata.go:83-85 | double slashes and "." parts change no path |
| `Paths.TrailingSlashIgnored` | task/metadata.go:83-85 | a configured directory may end in a slash or "/." |
| `Paths.PlainPathsStay` | task/metadata.go:83-85 | paths of plain names are clean |
| `Paths.LeadingDots` | task/metadata.go:83-85 | leading ".." stays in a relative path and goes at the root |
| `Paths.JoinAppends` | task/metadata.go:83-85 | joining a name without a slash to any directory appends it to the cleaned directory |
| `Identity.PathSpelledOut` | task/metadata.go:83-85 | the path of a job whose token has no slash, as one formula |
| `Identity.PathShape` | task/metadata.go:83-85 | a token's own slashes extend the directory; what follows its last one begins the name |
| `Identity.PathCollisions` | task/metadata.go:83-85 | exactly when two jobs use the same metadata file, for arbitrary tokens, URLs and directories and IDs of any sign: same long ID, same end of the token, same cleaned directory |
| `Identity.PathIsInjective` | task/metadata.go:52-61 | with non-negative pipeline IDs, the same file means the same job |
| `Identity.TokenWithSlashCollides` | task/metadata.go:83-85 | in any directory, the token `x/../t` takes over the file of the token `t` |
| `Sites.SiteIsValid` | task/metadata.go:44-62 | the jobs of a site have pairwise distinct files, which is what the interleaving results assume, exactly when no two of them meet the condition above |
| `Sites.RegularSiteIsValid` | task/metadata.go:44-62 | tokens without a slash and non-negative pipeline IDs are enough |
| `Decimal.ParsePrint` | internal/runner/adapter.go:138-143 | reading a printed integer gives it back exactly when it fits the width, and fails otherwise |
| `Decimal.PrintParse` | internal/runner/adapter.go:138-143 | printing what was read gives the text back exactly when the text is canonical |
| `Decimal.ReadsDigitByDigit` | internal/runner/adapter.go:113-144 | '0' to '9' are read as 0 to 9, and each digit more multiplies by ten, as long as the result fits |
| `Decimal.ReadsSign` | internal/runner/adapter.go:113-144 | a plus changes nothing, a minus negates |
| `Decimal.PrintsDigitByDigit` | task/filename.go:18-23 | numbers are printed in the same way |
| `Decimal.WordSizes` | internal/runner/adapter.go:113-144 | what fits 32 and 64 bits |
| `Runner.EnvironmentIsRead` | internal/runner/adapter.go:113-144 | a number set in the environment is read as that number, exactly when it fits; an ID that is not set is zero, an exit code that is not set an error |
| `Runner.EnvironmentIdentity` | internal/runner/adapter.go:97-108 | two processes use the same file iff token, URL, pipeline and job agree as texts after the "unknown" and "0" defaults |
| `Runner.DecimalIds` | internal/runner/adapter.go:132-144 | an ID in decimal, with any sign and any leading zeros, is read as its value exactly when that fits 64 bits |
| `Runner.OnlyDecimalIds` | internal/runner/adapter.go:132-144 | nothing else is read but the empty text |
| `Runner.OverflowIsRejected` | internal/runner/adapter.go:132-144 | with an ID outside 64 bits, however it is written, there is no identity |
| `Runner.Process.InitAdapter` | internal/runner/adapter.go:82-111 | every field, by the name of its variable, after every possible early return: the one that could not be read is -1, later ones are zero; success iff all four can be read |
| `Runner.Adapter.GenerateExitFromError` | internal/runner/adapter.go:44-51 | the build failure code iff some link of the chain, at any depth, is a BuildFailureError |
| `Runner.Process.ExecuteHooks` | internal/cli/hook.go:11-20 | hooks run in order up to and including the first that fails, whose error is wrapped |
| `Runner.Process.Execute` | cmd/fargate/main.go:41-56 | the outcome of every process: panic iff a hook fails, 0 or -1 when an exit code cannot be parsed, otherwise a configured code |
| `Errors.Is` | internal/runner/build_error.go:27-35 | unwrapping finds a matching link iff there is one |
| `ExitCodes.StagesReportSystemFailures` | internal/runner/build_error.go:12-17 | no stage reports a build failure unless one of the library errors behind its calls is one |
| `ExitCodes.AnswerSsh` | executors/ssh/executor.go:61-85 | nor do the SSH executor and the session; the executor dials the requested host, runs the requested script, and reports the first failure; success, without a cancellation, means that the script ended well |
| `ExitCodes.AnswerRunTask` | aws/fargate.go:110-147 | nor does the AWS adapter, which gives no ARN along with an error |
| `ExitCodes.ExecuteStageProcess` | cmd/fargate/main.go:41-56 | unless a library reports a build failure, a process whose variables can be read ends with 0 when its stage succeeds and with the system failure code when it fails |
| `Session.AtMostOneResult` | executors/ssh/internal/session/session.go:25-45 | at most one result crosses the channel, and none once the cancel branch is taken; when the call has returned, the goroutine has finished its send iff the cancel branch was not taken |
| `Session.NilExactlyWhen` | executors/ssh/internal/session/session.go:32-44 | nil iff a nil result was received, or the cancel branch was taken and the signal delivered |
| `Session.NilWithoutCancellation` | executors/ssh/internal/session/session.go:32-36 | as long as the context is not done, nil means that the script has ended, and ended well |
| `Session.ErrorIsPassedOn` | executors/ssh/internal/session/session.go:32-45 | the call returns the script's error, or the signal's if the cancel branch was taken, in one more layer |
| `Session.EitherBranch` | executors/ssh/internal/session/session.go:32-44 | when both are ready, either branch may be taken |
| `Session.CallerCanGoOn` | executors/ssh/internal/session/session.go:32-42 | the call is never stuck once the script has ended or the context is done |
| `Session.NilWhileRunning` | executors/ssh/internal/session/session.go:37-44 | a run that returns nil while the script is still running |
| `SshExecutor.Executor.Execute` | executors/ssh/executor.go:61-85 | what one call dials, opens, runs, closes and disconnects, in order and with its arguments; success iff no step failed; otherwise the error names and carries the first failure, so a failing Disconnect is reported iff all else went well; the client left behind is nil or one whose Disconnect failed; a build failure iff the first failure is one |
| `SshExecutor.SuccessMeans` | executors/ssh/executor.go:61-85 | without a cancellation, no step failed iff key, dial, session and Disconnect were good and the script ended well |
| `SshExecutor.EverythingReleased` | executors/ssh/executor.go:61-85 | after any number of calls, every client dialled was disconnected exactly once and every session opened was closed exactly once |
| `SshExecutor.OrderOfUse` | executors/ssh/executor.go:133-154 | a script runs only in an open session of a connected client, and sessions are closed before their client is disconnected |
| `Aws.AwsFargate.ProcessEnvVariablesToInject` | aws/fargate.go:164-189 | for any map and visiting order, one entry per key, all denoting the last pair visited; the list represents the map iff it has at most one entry |
| `Aws.RepeatedRepresents` | aws/fargate.go:169-175 | copies of one entry represent a map iff there is no other entry |
| `Aws.AwsFargate.InjectWithCopies` | aws/fargate.go:169-175 | the same loop with variables of its own for each iteration represents any map in any order, so it is the sharing that breaks the list |
| `Aws.AwsFargate.RunTask` | aws/fargate.go:110-154 | whenever it fails the ARN is empty and the error carries the failure; a single environment variable reaches the cluster unchanged |
| `Aws.AwsFargate.StartNewFargateTask` | cmd/fargate/commands/custom/prepare.go:124-148 | the container gets exactly SSH_PUBLIC_KEY with the public key; success iff the launch succeeded, with its ARN; otherwise no ARN, and the error carries the launch's failure |
| `Cli.App.ComposeCategory` | internal/cli/app.go:87-99 | for trees of any depth and width the loops and the recursion end and offer exactly the declared paths, each with its own handler, in the declared order |
| `Cli.ComposedInOrder` | internal/cli/app.go:87-99 | the existing subcommands come first, then the subcategories, then the commands, each with its handler |
| `Cli.App.RegisterCategory` | internal/cli/app.go:83-85 | registering adds the category's declared paths after the existing ones and changes no others |
| `Cli.App.RegisterCommand` | internal/cli/app.go:70-72 | the same for a single command |

## Left out

- Two stage processes of the same job at the same time: the runner executes the stages of a job one after another, in any order and any number, and so does the model.
- The responses of AWS in full: empty or nil responses, attachments and network interfaces (aws/fargate.go:245-342); GetIP is one call that returns the address of its cluster entry.
- SSH dialling, key parsing and generation, SHA-256, JSON, TOML and the CLI library: arbitrary outcomes or parameters with stated laws.
- Byte encodings of strings: Go strings are sequences of characters, and the path functions are those of Unix.
- The config stage and its output, script contents, logging, versions and flags.
- Closing the log file: main.go:82 registers the hook's value before main.go:174 replaces it, so the opened file is never closed by it, contrary to the comment there; the after hook has no effect and is not modelled.
- Sharing of the slices' backing arrays when commands are composed: command lists are values.
- Stopping a task that the cluster has already forgotten: StopTask on a stopped task can always succeed.
- Deletion of metadata files by others is part of the register and of the classes, but not of the interleaved system.
- Death inside a command's method: the methods run to their end, and a process that dies is a step of the interleaved system (`Kill`, `KillAfter`).
- Implementations of Fargate other than the AWS adapter, which may give an ARN along with an error, are covered by the results about complete runs of prepare, not by those about the interleaved system.
- The signal handler's own goroutine: a signal is the Cancel step, and nothing undoes it within a process.
