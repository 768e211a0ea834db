/**
 * The machine the launcher runs on, as far as the launcher can see it: the
 * cgroup directories and control files, the shared cgroups_done flag, and a
 * trace of every system call made with its outcome. What the kernel answers
 * is fixed in advance by a fault plan (file-system calls) and by scripted
 * outcomes (process and namespace calls), so every run is determined.
 */
module Host {
  import opened Common

  /** A PID the kernel hands out for a new process: positive and a 32-bit pid_t. */
  type ChildPid = p: int | 0 < p < 0x8000_0000 witness 1

  /** One system call, or a store to the shared flag, as it happened. */
  datatype Event =
    | MapStack(ok: bool)
    | MapFlag
    | Clone(child: Option<ChildPid>)
    | Mkdir(path: string, ok: bool)
    | Open(path: string, ok: bool)
    | Write(path: string, data: string, accepted: nat)
    | Close(path: string, ok: bool)
    | RaiseFlag
    | Unshare(ok: bool)
    | OpenNetns(ok: bool)
    | Setns(ok: bool)
    | CloseNetns
    | Chdir(path: string, ok: bool)
    | Chroot(ok: bool)
    | MountProc(ok: bool)
    | Fork(ok: bool)
    | Exec(argv: seq<string>, ok: bool)
    | Reap(result: int)
    | Umount(ok: bool)
    | WaitContainer(ok: bool)
    | UnmapStack(ok: bool)
    | UnmapFlag(ok: bool)
    | Rmdir(path: string, ok: bool)

  /**
   * Which file-system calls fail. Directories are named without a trailing
   * slash; an fwrite to a path in shortWrites takes at most that many bytes.
   */
  datatype Faults = Faults(
    mkdirFails: set<string>,
    openFails: set<string>,
    shortWrites: map<string, nat>,
    closeFails: set<string>,
    rmdirFails: set<string>)

  /** How each process and namespace call of a run turns out; each is made at most once. */
  datatype Outcomes = Outcomes(
    stackMapped: bool,
    cloned: Option<ChildPid>,
    unshareOk: bool,
    netnsOpenOk: bool,
    setnsOk: bool,
    chdirOk: bool,
    chrootOk: bool,
    mountOk: bool,
    forkOk: bool,
    execOk: bool,
    umountOk: bool,
    containerWaitOk: bool,
    stackUnmapped: bool,
    flagUnmapped: bool)

  /** Everything a run can change, as one value. */
  datatype World = World(
    dirs: set<string>,
    files: map<string, string>,
    flag: bool,
    pending: seq<int>,
    trace: seq<Event>)

  /** The name a directory is known by: "/a/b/" and "/a/b" are the same directory. */
  function DirKey(path: string): string
  {
    if path != [] && path[|path| - 1] == '/' then path[..|path| - 1] else path
  }

  /** Whether mkdir(path) succeeds: the directory must not exist yet (else EEXIST) and not be faulted. */
  function MkdirOk(f: Faults, dirs: set<string>, path: string): bool
  {
    DirKey(path) !in dirs && DirKey(path) !in f.mkdirFails
  }

  /** Whether rmdir(path) succeeds: the directory must exist and not be faulted. */
  function RmdirOk(f: Faults, dirs: set<string>, path: string): bool
  {
    DirKey(path) in dirs && DirKey(path) !in f.rmdirFails
  }

  /** How many bytes fwrite(data) to path takes. */
  function Accepted(f: Faults, path: string, data: string): (n: nat)
    ensures n <= |data|
    ensures n == |data| <==> path !in f.shortWrites || f.shortWrites[path] >= |data|
  {
    if path in f.shortWrites then Min(f.shortWrites[path], |data|) else |data|
  }

  class Host {
    var dirs: set<string>
    var files: map<string, string>
    /** cgroups_done, the flag main and the container process share through a MAP_SHARED page. */
    var flag: bool
    /** What the container's waitpid(-1) calls will return, in order. */
    var pending: seq<int>
    var trace: seq<Event>
    const faults: Faults
    const outcomes: Outcomes

    constructor (dirs0: set<string>, files0: map<string, string>, reaps: seq<int>, faults: Faults, outcomes: Outcomes)
      ensures State() == World(dirs0, files0, false, reaps, [])
      ensures this.faults == faults && this.outcomes == outcomes
    {
      dirs, files, flag, pending, trace := dirs0, files0, false, reaps, [];
      this.faults, this.outcomes := faults, outcomes;
    }

    function State(): World
      reads this
    {
      World(dirs, files, flag, pending, trace)
    }

    // ------------------------------------------------------------ file system

    method Mkdir(path: string) returns (ok: bool)
      modifies this`dirs, this`trace
      ensures ok == MkdirOk(faults, old(dirs), path)
      ensures dirs == if ok then old(dirs) + {DirKey(path)} else old(dirs)
      ensures trace == old(trace) + [Event.Mkdir(path, ok)]
    {
      ok := MkdirOk(faults, dirs, path);
      if ok {
        dirs := dirs + {DirKey(path)};
      }
      trace := trace + [Event.Mkdir(path, ok)];
    }

    /** fopen(path, "w"): the file is truncated when the open succeeds. */
    method Fopen(path: string) returns (ok: bool)
      modifies this`files, this`trace
      ensures ok == (path !in faults.openFails)
      ensures files == if ok then old(files)[path := []] else old(files)
      ensures trace == old(trace) + [Open(path, ok)]
    {
      ok := path !in faults.openFails;
      if ok {
        files := files[path := []];
      }
      trace := trace + [Open(path, ok)];
    }

    /** fwrite on an open file: appends the bytes the kernel takes and returns their count. */
    method Fwrite(path: string, data: string) returns (n: nat)
      requires path in files
      modifies this`files, this`trace
      ensures n == Accepted(faults, path, data)
      ensures files == old(files)[path := old(files)[path] + data[..n]]
      ensures trace == old(trace) + [Write(path, data, n)]
    {
      n := Accepted(faults, path, data);
      files := files[path := files[path] + data[..n]];
      trace := trace + [Write(path, data, n)];
    }

    method Fclose(path: string) returns (ok: bool)
      modifies this`trace
      ensures ok == (path !in faults.closeFails)
      ensures trace == old(trace) + [Close(path, ok)]
    {
      ok := path !in faults.closeFails;
      trace := trace + [Close(path, ok)];
    }

    method Rmdir(path: string) returns (ok: bool)
      modifies this`dirs, this`trace
      ensures ok == RmdirOk(faults, old(dirs), path)
      ensures dirs == if ok then old(dirs) - {DirKey(path)} else old(dirs)
      ensures trace == old(trace) + [Event.Rmdir(path, ok)]
    {
      ok := RmdirOk(faults, dirs, path);
      if ok {
        dirs := dirs - {DirKey(path)};
      }
      trace := trace + [Event.Rmdir(path, ok)];
    }

    // ------------------------------------------------------------ main's process calls

    method MmapStack() returns (ok: bool)
      modifies this`trace
      ensures ok == outcomes.stackMapped && trace == old(trace) + [MapStack(ok)]
    {
      ok := outcomes.stackMapped;
      trace := trace + [MapStack(ok)];
    }

    /** The MAP_SHARED page for cgroups_done; main does not check this mapping, and the page starts zeroed. */
    method MmapFlag()
      modifies this`flag, this`trace
      ensures !flag && trace == old(trace) + [MapFlag]
    {
      flag := false;
      trace := trace + [MapFlag];
    }

    /** clone(2): the new container process's PID, or -1. */
    method Clone() returns (pid: int)
      modifies this`trace
      ensures pid == (if outcomes.cloned.Some? then outcomes.cloned.value as int else -1)
      ensures trace == old(trace) + [Event.Clone(outcomes.cloned)]
    {
      pid := if outcomes.cloned.Some? then outcomes.cloned.value as int else -1;
      trace := trace + [Event.Clone(outcomes.cloned)];
    }

    /** *cgroups_done = true. */
    method SetFlag()
      modifies this`flag, this`trace
      ensures flag && trace == old(trace) + [RaiseFlag]
    {
      flag := true;
      trace := trace + [RaiseFlag];
    }

    /** main's waitpid(-1, &status, 0) for the container process. */
    method WaitContainer() returns (ok: bool)
      modifies this`trace
      ensures ok == outcomes.containerWaitOk && trace == old(trace) + [Event.WaitContainer(ok)]
    {
      ok := outcomes.containerWaitOk;
      trace := trace + [Event.WaitContainer(ok)];
    }

    method MunmapStack() returns (ok: bool)
      modifies this`trace
      ensures ok == outcomes.stackUnmapped && trace == old(trace) + [UnmapStack(ok)]
    {
      ok := outcomes.stackUnmapped;
      trace := trace + [UnmapStack(ok)];
    }

    method MunmapFlag() returns (ok: bool)
      modifies this`trace
      ensures ok == outcomes.flagUnmapped && trace == old(trace) + [UnmapFlag(ok)]
    {
      ok := outcomes.flagUnmapped;
      trace := trace + [UnmapFlag(ok)];
    }

    // ------------------------------------------------------------ the container process's calls

    method UnshareIpc() returns (ok: bool)
      modifies this`trace
      ensures ok == outcomes.unshareOk && trace == old(trace) + [Unshare(ok)]
    {
      ok := outcomes.unshareOk;
      trace := trace + [Unshare(ok)];
    }

    method OpenNetworkNamespace() returns (ok: bool)
      modifies this`trace
      ensures ok == outcomes.netnsOpenOk && trace == old(trace) + [OpenNetns(ok)]
    {
      ok := outcomes.netnsOpenOk;
      trace := trace + [OpenNetns(ok)];
    }

    method JoinNetworkNamespace() returns (ok: bool)
      modifies this`trace
      ensures ok == outcomes.setnsOk && trace == old(trace) + [Setns(ok)]
    {
      ok := outcomes.setnsOk;
      trace := trace + [Setns(ok)];
    }

    method CloseNetworkNamespace()
      modifies this`trace
      ensures trace == old(trace) + [CloseNetns]
    {
      trace := trace + [CloseNetns];
    }

    method ChangeDir(path: string) returns (ok: bool)
      modifies this`trace
      ensures ok == outcomes.chdirOk && trace == old(trace) + [Chdir(path, ok)]
    {
      ok := outcomes.chdirOk;
      trace := trace + [Chdir(path, ok)];
    }

    /** chroot("./"): the current directory becomes the root. */
    method ChangeRoot() returns (ok: bool)
      modifies this`trace
      ensures ok == outcomes.chrootOk && trace == old(trace) + [Chroot(ok)]
    {
      ok := outcomes.chrootOk;
      trace := trace + [Chroot(ok)];
    }

    method MountProcFs() returns (ok: bool)
      modifies this`trace
      ensures ok == outcomes.mountOk && trace == old(trace) + [MountProc(ok)]
    {
      ok := outcomes.mountOk;
      trace := trace + [MountProc(ok)];
    }

    method ForkProcess() returns (ok: bool)
      modifies this`trace
      ensures ok == outcomes.forkOk && trace == old(trace) + [Fork(ok)]
    {
      ok := outcomes.forkOk;
      trace := trace + [Fork(ok)];
    }

    /** execvp(argv[0], argv) in the forked child; on failure that child exits with EXIT_FAILURE. */
    method ExecCommand(argv: seq<string>) returns (ok: bool)
      modifies this`trace
      ensures ok == outcomes.execOk && trace == old(trace) + [Exec(argv, ok)]
    {
      ok := outcomes.execOk;
      trace := trace + [Exec(argv, ok)];
    }

    /** The container process's waitpid(-1, 0, 0): the next scripted result. */
    method WaitAny() returns (result: int)
      requires pending != []
      modifies this`pending, this`trace
      ensures result == old(pending)[0] && pending == old(pending)[1..]
      ensures trace == old(trace) + [Reap(result)]
    {
      result := pending[0];
      pending := pending[1..];
      trace := trace + [Reap(result)];
    }

    method UnmountProc() returns (ok: bool)
      modifies this`trace
      ensures ok == outcomes.umountOk && trace == old(trace) + [Umount(ok)]
    {
      ok := outcomes.umountOk;
      trace := trace + [Umount(ok)];
    }
  }
}
