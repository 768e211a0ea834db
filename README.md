# dry-dock container launcher, modelled in Dafny

dry-dock's `container` program starts a command inside a small Linux
container. `main` settles the launch parameters from argv and an optional
config file of `key: value` lines. It then clones the container process into
new PID, network and mount namespaces. Next it creates a memory, a pids and a
cpu cgroup for that process, writes the limits and the PID into them, and
raises the shared `cgroups_done` flag. Finally it waits for the container,
unmaps its two mappings, and removes the three cgroups.

The container process spins until the flag is up. It then:

- leaves the IPC namespace it shares and joins the prepared network namespace;
- `chdir`s into the container root, `chroot`s there and mounts `/proc`;
- forks the user's command, and acts as the init of its PID namespace until
  `zombie_slayer` reaps a child;
- unmounts `/proc`.

The retry-and-accumulate descriptor and socket helpers (`read_all_from_fd`,
`write_all_to_fd`, `close_fd_interrupt_proof`, `write_all_to_socket`,
`read_all_from_socket`) are modelled as well.

The kernel is an oracle.

- **File-system calls.** The answers to `mkdir`, `fopen`, `fwrite`, `fclose`
  and `rmdir` come from a fault plan (`Host.Faults`).
- **Process and namespace calls.** These have one scripted outcome each
  (`Host.Outcomes`). The results of the container's `waitpid` calls form a
  script (`Host.Host.pending`).
- **Retry loops.** Each loop is replayed against a finite script of `read`,
  `write`, `send`, `recv` or `close` outcomes.

`Host.Host` is a class holding the state the launcher can change: the cgroup
directories, the control files, the flag, the waitpid script, and a trace of
every call made with its outcome. Each imperative function of the source
becomes a method on that class. The method is proved equal to a
specification function, and the lemmas state what the source promises about
that function.

Modules and files:

- `common.dfy`: shared vocabulary, plus generic first-index and fold helpers.
- `format.dfy`: `%u`/`%d` formatting, `atoi`, the PID record written to
  `cgroup.procs`.
- `fdio.dfy`: the util.c loops.
- `socketio.dfy`: the dry-dock/utils.c loops.
- `host.dfy`: the machine and its calls.
- `config.dfy`: the defaults, argv, `strtok`/`strstr`, the config loop and the
  CPU% check.
- `cgroups.dfy`: `setup_*_cgroup`, `setup_cgroups`, `clean_up_cgroups`.
- `container.dfy`: `zombie_slayer`, `setup_container_process`, `main`.

## Model

| member | source | states |
|---|---|---|
| Common.Deliver | util.c:41 | a read into `buffer + total` changes exactly the bytes it delivers, and the rest of the buffer keeps its old contents |
| Format.Decimal | container.c:303-305 | `%u` text is one or more digits with no sign and no leading zero except for 0, and contains no NUL |
| Format.DecimalRoundTrip | container.c:303-305 | reading the formatted digits back gives the number |
| Format.DecimalLength | container.c:303 | the length snprintf reports is exactly the number of decimal digits the value needs |
| Format.DecimalInjective | container.c:303-305 | two different PIDs never format alike |
| Format.SkipSpace | container.c:381 | atoi's white-space skip leaves a suffix of the input that starts with no white space |
| Format.LeadingDigits | container.c:381 | atoi's digit run is the longest all-digit prefix |
| Format.AtoiDecimal | container.c:381 | atoi reads back what `%d`/`%u` wrote for any non-negative number |
| Format.AtoiNegatedDecimal | container.c:381-382 | atoi of `-` followed by digits is the negated number |
| Format.PidRecord | container.c:303-305 | the buffer written to each cgroup.procs is the `%u` text of the pid_t followed by its NUL, one byte longer than the digits |
| Format.PidRecordOfPositive | container.c:303-305 | for a positive PID the record is its decimal digits (value equals the PID, first digit non-zero) followed by a NUL |
| FdIo.ReadAll | util.c:36-53 | the bytes read stay between what was already in and `count`, and the result is -1 or the total read |
| FdIo.ReadKeepsOrder | util.c:41-50 | what is read is a prefix of the bytes the reads offered, in read order |
| FdIo.ReadInterruptInvisible | util.c:43-47 | inserting an EINTR anywhere in the read script changes neither the result nor the data |
| FdIo.ReadHardError | util.c:43-49 | a read failing with any errno but EINTR returns -1 at once, with nothing more read |
| FdIo.ReadEndOfFile | util.c:41-52 | a read returning 0 ends the loop with the partial total |
| FdIo.ReadFullProgress | util.c:41-52 | if every read delivers and enough is offered, the call returns exactly `count` with the first `count` bytes offered |
| FdIo.ReadAllFromFd | util.c:36-53 | the loop returns the specification's result (never more than `count`); the bytes read occupy `buffer[0..total)` in read order, and the rest of the buffer is untouched |
| FdIo.WriteAll | util.c:55-74 | the total written is bounded by `count` and by what the script takes; the result is -1 or the total |
| FdIo.WriteInterruptInvisible | util.c:64-68 | an EINTR anywhere in the write script changes nothing |
| FdIo.WriteStops | util.c:62-70 | any errno but EINTR gives -1; a 0-byte write stops with the partial total |
| FdIo.WriteFullProgress | util.c:62-73 | if every write takes something and the script takes enough, the call returns `count` |
| FdIo.WriteAllToFd | util.c:55-74 | the loop returns the specification's result; the descriptor received the first `sent` bytes of the buffer, in order |
| FdIo.CloseRetry | util.c:9-20 | close_fd_interrupt_proof returns only 0 or -1 |
| FdIo.CloseOutcome | util.c:9-20 | the result is 0 exactly when the first close not failing with EINTR succeeds, -1 exactly when it fails, and undecided only when every close is interrupted |
| FdIo.CloseFdInterruptProof | util.c:9-20 | the retry loop returns what CloseRetry says |
| SocketIo.SendAll | dry-dock/utils.c:11-26 | the total sent is bounded by `count` and by what the script takes; a returned value is -1, or exactly `count` with everything sent |
| SocketIo.SendInterruptInvisible | dry-dock/utils.c:17-19 | an EINTR anywhere in the send script changes nothing |
| SocketIo.SendStops | dry-dock/utils.c:15-22 | a send of 0 bytes and any errno but EINTR both give -1 |
| SocketIo.SendFullProgress | dry-dock/utils.c:13-25 | if every send takes something and the script takes enough, the call returns `count` |
| SocketIo.WriteAllToSocket | dry-dock/utils.c:11-26 | the loop returns the specification's result, which is -1 or `count`; the peer got the first `sent` bytes in order |
| SocketIo.RecvAll | dry-dock/utils.c:28-49 | the bytes received stay within `count`; the result is -1 or the total received |
| SocketIo.RecvKeepsOrder | dry-dock/utils.c:31-46 | what is received is a prefix of the bytes offered, in arrival order |
| SocketIo.RecvInterruptInvisible | dry-dock/utils.c:36-38 | an EINTR anywhere in the receive script changes nothing |
| SocketIo.RecvStops | dry-dock/utils.c:33-44 | a closed peer, EAGAIN and EWOULDBLOCK return the partial total, and any other errno but EINTR returns -1 |
| SocketIo.RecvFullProgress | dry-dock/utils.c:31-48 | if every recv delivers and enough is offered, the call returns `count` with the first `count` bytes offered |
| SocketIo.ReadAllFromSocket | dry-dock/utils.c:28-49 | the loop returns the specification's result (never more than `count`); the bytes received occupy the front of the buffer, and the rest is untouched |
| Host.Accepted | container.c:139 | fwrite takes at most the bytes offered, and takes them all exactly when the file has no short-write fault |
| Host.Host.constructor | container.c:41 | the machine starts with the given directories, files and waitpid script, the flag down and an empty trace |
| Host.Host.Mkdir | container.c:131 | mkdir succeeds only for a directory that is absent and not faulted (EEXIST otherwise), adds it, and records the call |
| Host.Host.Fopen | container.c:136 | `fopen(path, "w")` truncates the file when it succeeds, and records the call |
| Host.Host.Fwrite | container.c:139 | fwrite appends the bytes the kernel takes and returns how many |
| Host.Host.Fclose | container.c:143 | fclose succeeds unless faulted, and records the call |
| Host.Host.Rmdir | container.c:318 | rmdir succeeds only for an existing directory that is not faulted, removes it, and records the call |
| Host.Host.MmapStack | container.c:405-406 | the stack mapping's outcome is scripted and recorded |
| Host.Host.MmapFlag | container.c:411 | the shared flag page starts zeroed (flag down) |
| Host.Host.Clone | container.c:414 | clone returns the scripted PID, or -1 |
| Host.Host.SetFlag | container.c:422 | `*cgroups_done = true` raises the flag and records the store |
| Host.Host.WaitContainer | container.c:425 | main's waitpid outcome is scripted and recorded |
| Host.Host.MunmapStack | container.c:429 | the stack munmap outcome is scripted and recorded |
| Host.Host.MunmapFlag | container.c:433 | the flag munmap outcome is scripted and recorded |
| Host.Host.UnshareIpc | container.c:66 | unshare(CLONE_NEWIPC)'s outcome is scripted and recorded |
| Host.Host.OpenNetworkNamespace | container.c:72 | opening the network namespace file has a scripted outcome |
| Host.Host.JoinNetworkNamespace | container.c:77 | setns has a scripted outcome |
| Host.Host.CloseNetworkNamespace | container.c:80 | the namespace descriptor's close is recorded |
| Host.Host.ChangeDir | container.c:84 | chdir into the root path has a scripted outcome |
| Host.Host.ChangeRoot | container.c:90 | `chroot("./")` has a scripted outcome |
| Host.Host.MountProcFs | container.c:96 | mounting /proc has a scripted outcome |
| Host.Host.ForkProcess | container.c:103 | fork has a scripted outcome |
| Host.Host.ExecCommand | container.c:111 | execvp of the command has a scripted outcome |
| Host.Host.WaitAny | container.c:51 | the container's waitpid(-1) returns the next scripted result and consumes it |
| Host.Host.UnmountProc | container.c:120 | umount of /proc has a scripted outcome |
| Config.LineEnd | container.c:365 | a token ends at the first newline, or at the end of the text |
| Config.NextToken | container.c:365-394 | strtok yields a non-empty token with no newline and resumes on a strictly shorter rest; it yields none exactly when only newlines remain |
| Config.TokensAreNonEmptyLines | container.c:365-395 | the tokens are exactly the non-empty lines, in order, so blank lines are skipped |
| Config.CText | container.c:360 | the C string in a buffer is its longest NUL-free prefix |
| Config.FindFrom | container.c:367 | an occurrence found from position i is a real occurrence at or after i |
| Config.FindFromFirst | container.c:367 | the occurrence found is the first at or after i, and none is found only when none exists there |
| Config.Find | container.c:367 | strstr's position is a real occurrence of the key |
| Config.FindFirst | container.c:367 | strstr finds the first occurrence, and finds none exactly when the key occurs nowhere |
| Config.KeyLineValue | container.c:367-378 | a line made of a key, one separating character and a value gives exactly that value, for all four keys and their offsets +11, +21, +11, +6 |
| Config.RawValueShape | container.c:367-378 | a non-empty value is the rest of the token after the key's first occurrence (anywhere in the token) and one skipped character |
| Config.CpuQuotaRange | container.c:379-392 | a CPU% is accepted exactly when atoi gives 0 to 100, with quota `p * 1000000 / 100`; below 0 is refused as negative and above 100 as over the limit |
| Config.CpuPercentAccepted | container.c:381-392 | for a percentage written in decimal from 0 to 100 the quota is `pct * 10000` |
| Config.CpuPercentRefused | container.c:381-388 | a decimal percentage above 100 is refused as over the limit, and a negative one as negative |
| Config.OverwriteField | container.c:367-378 | a verbatim key overwrites only its own field, and only when the token contains it |
| Config.UnrelatedTokenIgnored | container.c:366-395 | a token with none of the four keys leaves the parameters unchanged |
| Config.ApplyTokenField | container.c:366-393 | after one token each field holds the token's value for its key (the CPU quota its decimal quota) or keeps its old value; root, command and period never change |
| Config.LaterLineWins | container.c:365-395 | after the whole loop each field holds the value from the last line that mentions its key, or its value before the loop; root, command and period never change |
| Config.ApplyTokenRefuses | container.c:379-388 | one token fails exactly when its CPU% is refused, and with that refusal's error |
| Config.ParseRejects | container.c:365-395 | the config is rejected exactly when some line's CPU% is out of range, and with the error of the first such line |
| Config.StoreValue | container.c:367-378 | one strstr test stores the text past the key into its field, or changes nothing |
| Config.ApplyLine | container.c:366-393 | one pass of the loop body does what ApplyToken specifies, including the two CPU% refusals |
| Config.ApplyConfig | container.c:363-395 | the strtok loop over the read buffer computes ParseTokens over its tokens, stopping at the first refusal |
| Config.StrtokMarks | container.c:365-394 | strtok's NUL marking leaves the buffer's length unchanged |
| Config.MemLimitTakesNextLine | container.c:367-369 | as written, `mem_limit:` with nothing after it stores the whole next line as its value |
| Config.LineTakesNextLine | container.c:367-378 | as written, a value address one past a line's end reads the whole next line |
| Config.MemLimitLineIsEmpty | container.c:365-369 | in that case the first token is just `mem_limit:` and its value in the corrected model is empty |
| Config.RawValueWithinLine | container.c:367-378 | corrected: the stored value is always a suffix of its own line, with no newline |
| Config.CpuPercentTakesNextLine | container.c:379-387 | as written, a bare `CPU%:` line followed by a percentage above 100 has that percentage as its value, and it is refused as over the limit |
| Config.DigitsMentionNoKey | container.c:366-379 | no key occurs in a line of digits, so such a line changes no field |
| Config.CpuLineIsEmpty | container.c:365-393 | corrected: the same text splits into the bare `CPU%:` line and the digits, and it is accepted with a quota of 0 |
| Config.FullReadOverruns | container.c:353-360 | as written, the NUL's index is inside the 1000-byte buffer exactly when the file is shorter than 1000 bytes; otherwise it is index 1000, one past the end |
| Config.ReadConfigBuffer | container.c:353-360 | corrected: reading at most 999 bytes, the buffer holds the file's first bytes and the NUL fits inside it |
| Config.LaunchLayout | container.c:331-345 | fewer than three arguments is a usage failure; the root is `argv[argc-2]` and the command `argv[argc-1]`; the period stays 1000000; without a config file the limits are the five defaults |
| Cgroups.ControlsFilesElsewhere | container.c:136-184 | a file none of the blocks is for keeps what it had |
| Cgroups.ControlsFilesEffect | container.c:136-184 | each control file ends up holding exactly the bytes its own fwrite took, or keeps what it had when it would not open |
| Cgroups.EveryControlTried | container.c:136-184 | every control file is opened exactly once, in source order, whatever failed before it |
| Cgroups.ControlPathsDistinct | container.c:22-36 | a controller's control files are all different |
| Cgroups.ControllerFilesHealthy | container.c:131-184 | with no fault and the group absent, the group is created and every control file holds exactly its data |
| Cgroups.ControllerElsewhere | container.c:131-184 | a controller writes no file but its own, whatever fails |
| Cgroups.ControllersApart | container.c:22-36 | each controller's control paths begin with its own group directory and a slash, and the three groups differ at index 15 |
| Cgroups.SetupMemoryHealthy | container.c:128-185 | with no fault and no group left over, the memory files hold the memory limit, the memory-plus-swap limit and the PID record |
| Cgroups.SetupPidHealthy | container.c:188-226 | with no fault, the pids files hold the PID limit and the PID record |
| Cgroups.SetupCpuHealthy | container.c:229-283 | with no fault, all three groups are created, and the cpu files hold the period, the quota and the PID record |
| Cgroups.SetupCgroupsElsewhere | container.c:290-313 | setup changes no file but the eight control files |
| Cgroups.ControllerWritten | container.c:128-282 | one controller leaves each of its files with the bytes fwrite took when its mkdir succeeded and the file opened, and unchanged otherwise |
| Cgroups.Untouched | container.c:128-282 | one controller's step leaves the files of the other groups' controllers alone, whatever fails |
| Cgroups.SetupCgroupsFiles | container.c:128-313 | for every fault plan, each of the eight control files holds the bytes fwrite took exactly when its group was created and the file opened; otherwise it keeps its old contents |
| Cgroups.GroupNames | container.c:318-324 | the mkdir paths (two with a trailing slash) and the rmdir paths name the same three distinct groups |
| Cgroups.ExistingGroupSkipped | container.c:131-135 | a group that already exists makes mkdir fail, and that controller writes no file at all |
| Cgroups.ProcsRecordIsPid | container.c:303-305 | each cgroup.procs receives the container PID's decimal digits followed by a NUL |
| Cgroups.SetupCgroupsDirs | container.c:290-313 | setup creates only the three group directories, and a group exactly when it was absent and its mkdir is not faulted |
| Cgroups.CleanUpDirs | container.c:316-327 | for every fault plan, teardown removes exactly the groups whose rmdir is not faulted, the others' failures notwithstanding, and touches no file |
| Cgroups.SetupThenCleanUp | container.c:290-327 | starting with no group and no rmdir fault, setup and teardown leave the directory tree as found |
| Cgroups.ControllerEvents | container.c:131-184 | a controller makes only cgroup calls and does not touch the flag or the container's script |
| Cgroups.SetupCgroupsEvents | container.c:290-313 | setup_cgroups makes only cgroup calls and touches neither the flag nor the container |
| Cgroups.CleanUpEvents | container.c:316-327 | teardown makes exactly three rmdir calls, memory, pids, cpu, each succeeding on its own group's presence and faults alone, and changes only directories |
| Cgroups.WriteControl | container.c:136-151 | one fopen/fwrite/fclose block; a failed open skips the write, and a short write or failed close is only reported |
| Cgroups.WriteControls | container.c:136-184 | the blocks run one after another, each independent of the others' failures |
| Cgroups.SetupController | container.c:131-184 | a failed mkdir returns early with no file written; otherwise every block runs |
| Cgroups.SetupMemoryCgroup | container.c:128-185 | memory limit, memory-plus-swap limit, then cgroup.procs |
| Cgroups.SetupPidCgroup | container.c:188-226 | pids.max, then cgroup.procs |
| Cgroups.SetupCpuCgroup | container.c:229-283 | period, quota, then cgroup.procs |
| Cgroups.SetupNetworkCgroup | container.c:285-287 | the network step changes nothing |
| Cgroups.SetupCgroups | container.c:290-313 | the PID is formatted once, and memory, pids, cpu and network run in that order |
| Cgroups.CleanUpCgroups | container.c:316-327 | three rmdir calls, each made whatever the others did |
| Container.ReapEvents | container.c:51 | one waitpid call is recorded per result |
| Container.ReapEventsAt | container.c:51-55 | the i-th recorded reap is the i-th waitpid result |
| Container.ZombieSlayer | container.c:47-56 | waitpid is called until the first positive result, which is consumed, and the loop returns there even if children remain |
| Container.JoinNamespaces | container.c:66-80 | unshare and the namespace open are fatal; setns is only reported; the namespace descriptor is closed either way |
| Container.EnterRoot | container.c:84-107 | chdir, chroot, mount and fork in that order, each failure ending the sequence |
| Container.Supervise | container.c:109-124 | exec in the child, zombie_slayer, umount (reported only), exit status 0 |
| Container.SetupContainerProcess | container.c:59-125 | the container process does what InitSpec says: nothing until the flag is up, exit status 1 at the first fatal failure, otherwise exec, reap, umount and exit status 0 |
| Container.PreparationKinds | container.c:66-107 | the preparation makes only container-process calls and no exec |
| Container.InitExecsOnlyWhenReady | container.c:64-114 | the user's command is exec'd exactly when the flag was up and every fatal step succeeded; every call made is the container's |
| Container.InitExitStatus | container.c:66-124 | exit status 1 exactly when a fatal step fails, 0 exactly when a child is reaped; setns, exec and umount failures do not change the status |
| Container.PreparationOrder | container.c:84-107 | chroot comes only right after a successful chdir into the root, the /proc mount only right after a successful chroot, and fork only right after a successful mount |
| Container.SettleParams | container.c:330-396 | argv, the config read and the parse give LaunchParams' result |
| Container.ReleaseAndWait | container.c:420-440 | cgroups, flag, the container's run, wait, both munmaps, cleanup, return 0 |
| Container.Launch | container.c:330-441 | main does what LaunchSpec says |
| Container.RaiseSplits | container.c:420-422 | the flag goes up after setup, with no container call or earlier flag store before it |
| Container.InitSplits | container.c:64-125 | the container's calls after the flag include no cgroup write and no flag store |
| Container.WindDownSplits | container.c:425-438 | the wind-down adds no cgroup write and no flag store |
| Container.AfterCloneSplits | container.c:420-438 | after the clone the flag goes up once, after every cgroup write and before every container call |
| Container.FlagOrdersProcesses | container.c:414-438 | every container-process call follows the raised flag, and every cgroup write precedes it |
| Container.LaunchExitStatus | container.c:330-441 | main returns 1 exactly when the parameters fail or the clone fails, and 0 whenever the container process ends, whatever its own status |
| Container.LaunchLeavesNoGroups | container.c:420-438 | a launch that starts with no group and has no rmdir fault leaves the directory tree as it found it |

## Left out

- Kernel effects of `clone`, `mmap`/`munmap`, `unshare`, `setns`, `chdir`, `chroot`, `mount`/`umount`, `fork`, `execvp` and `waitpid` are scripted outcomes. Namespaces, path resolution and cgroup enforcement are not modelled.
- Concurrency behind `cgroups_done` is sequentialised: the container process runs as a whole right after main raises the flag. With the flag down it makes no call (`StillWaiting`), and the spin loop's timing and shared memory are not modelled.
- `SetupContainerProcess`, `ReleaseAndWait`, `Launch`, the read/write loops and `ZombieSlayer` require the run to end within its scripts, so runs longer than their scripts (a spin forever, a read script that runs out) are not decided.
- Printed text (`printf`, `puts`, `perror`, the warning banners) is left out. A reported failure shows only as a failed call in the trace.
- Opening and reading the config file is one `ConfigFile` value (unopenable, read fails, or the bytes offered). The `read(2)` is not replayed.
- Config.CpuQuota: `atoi(value) * 10000` is computed on unbounded integers, so the 32-bit overflow of `int new_quota` (undefined in C) is not modelled.
- Format.Atoi: unbounded, so atoi's behaviour on values outside `int` (undefined in C) is not modelled.
- The `quota[10]` buffer whose address outlives its block is modelled as the quota's value.
- `char buff[1000]` is declared inside the `argc == 4` block, yet `mem_limit`, `mem_plus_swap_limit` and `pid_limit` keep pointing into it after the block ends, and `setup_cgroups` reads them there. The model stores these values as strings, so it does not capture this use of a buffer after its lifetime.
- Config.RawValue, Config.ApplyToken, Config.ApplyLine, Config.ApplyConfig, Config.ParseTokens, Config.LaunchParams, Container.SettleParams and Container.Launch follow the corrected within-line value rule (see Findings). A key that ends its line therefore yields an empty value in these members, not the next line. They accept configs the code as written rejects, such as `CPU%:` followed by a line `500`, which gets a CPU quota of 0 (Config.CpuLineIsEmpty and Config.CpuPercentTakesNextLine).
- `main` does not check the flag's `mmap`, and the model never fails it. A failed stack `mmap` is only recorded; what `clone` would do with that stack is not modelled, because its outcome is an independent oracle.
- stdio buffering is not modelled: `fwrite` goes straight to the file, and a short write keeps only the bytes taken.
- A read or recv script entry offering more than was asked for is taken in part, because the kernel never delivers more than requested.
- SocketIo.WriteAllToSocket and SocketIo.ReadAllFromSocket take `count` as a non-negative number no larger than `INT_MAX`; negative counts are not modelled.
- `open_fd_interrupt_proof` in util.c is not part of this model: it returns an uninitialised descriptor, so it has no behaviour to state.
- `src/dry-dock.c` (socket client and CLI), `mem_test.c`, `fork_test.c`, the `util.h` macros and the header declarations are not part of this model.
- Container.FlagOrdersProcesses and Container.LaunchLeavesNoGroups are stated over `Started`, main after its parameters are settled. Settling makes no call, so `LaunchSpec` equals `Started` whenever the parameters are accepted.
- Where the design and the code differ, the code is followed:
  - an existing cgroup (EEXIST) is not tolerated; that controller writes nothing;
  - the command is `argv[argc-1]` alone;
  - `zombie_slayer` returns after the first reaped child instead of reaping until none remain;
  - a failed `setns` is only reported.

## Findings

| source | as written | input that shows it | evidently intended | confidence | as-written member | corrected member |
|---|---|---|---|---|---|---|
| container.c:353-360 | `read(config, buff, 1000)` may fill all 1000 bytes, then `buff[bytes_read] = '\0'` writes index 1000 | a config file of 1000 bytes or more | read at most 999 bytes so that the terminator fits | not executed | Config.FullReadOverruns | Config.ReadConfigBuffer |
| container.c:367-378 | the value is taken at the key's address plus its offset in the strtok'd buffer, so a key ending its line reads past the token's NUL into the next line | config text `mem_limit:` followed by a newline and `pid_limit: 5` | the value is the rest of the key's own line, empty when nothing follows the key | not executed | Config.MemLimitTakesNextLine | Config.RawValueWithinLine |
| container.c:379-387 | the same address arithmetic for `CPU%:` hands atoi the next line, so a bare `CPU%:` line takes the following number as its percentage | config text `CPU%:` followed by a newline and `500` | the bare line has an empty value, read as 0 per cent, and the `500` line mentions no key | not executed | Config.CpuPercentTakesNextLine | Config.CpuLineIsEmpty |
