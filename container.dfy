/**
 * The launcher's two processes: main, which reads the parameters, clones the
 * container process, puts it into its cgroups, releases it and cleans up
 * after it; and the container process, which waits to be released, enters
 * its namespaces and root, mounts /proc, forks the user's command and then
 * acts as the init of its PID namespace.
 *
 * The two run concurrently in the source, synchronised only through the
 * cgroups_done flag. Here the container process runs, as a whole, at the one
 * point where it can first get past its wait: right after main raises the
 * flag, and before main waits for it.
 */
module Container {
  import opened Common
  import opened Host
  import Config
  import Cgroups

  const NETWORK_NAMESPACE: string := "/var/run/netns/netns0"

  // ---------------------------------------------------------------- zombie_slayer

  /** A waitpid result that is a reaped child; -1 and 0 make zombie_slayer call again. */
  predicate Reaped(result: int)
  {
    result > 0
  }

  /** The first waitpid result that is a reaped child, if any. */
  function FirstReaped(results: seq<int>): Option<nat>
  {
    FirstWhere(results, Reaped)
  }

  function ReapEvents(results: seq<int>): (es: seq<Event>)
    ensures |es| == |results|
    decreases |results|
  {
    if results == [] then [] else [Reap(results[0])] + ReapEvents(results[1..])
  }

  /** zombie_slayer records one waitpid call per result, in order. */
  lemma {:induction false} ReapEventsAt(results: seq<int>)
    ensures forall i :: 0 <= i < |results| ==> ReapEvents(results)[i] == Reap(results[i])
    decreases |results|
  {
    if results != [] {
      ReapEventsAt(results[1..]);
    }
  }

  lemma {:induction false} ReapEventsAppend(a: seq<int>, b: seq<int>)
    ensures ReapEvents(a + b) == ReapEvents(a) + ReapEvents(b)
    decreases |a|
  {
    if a == [] {
      assert a + b == b;
    } else {
      assert (a + b)[0] == a[0] && (a + b)[1..] == a[1..] + b;
      ReapEventsAppend(a[1..], b);
    }
  }

  /**
   * zombie_slayer: waitpid(-1) until one call returns a child, reporting each
   * -1; it returns after that first child, whether or not more remain.
   */
  method ZombieSlayer(h: Host)
    requires FirstReaped(h.pending).Some?
    modifies h`pending, h`trace
    ensures var k := FirstReaped(old(h.pending)).value;
      h.pending == old(h.pending)[k + 1..] && h.trace == old(h.trace) + ReapEvents(old(h.pending)[..k + 1])
  {
    ghost var results := h.pending;
    ghost var k := FirstReaped(results).value;
    var result := h.WaitAny();
    ghost var n := 0;
    assert results[..1] == [results[0]];
    while result <= 0
      invariant n <= k && result == results[n]
      invariant h.pending == results[n + 1..]
      invariant h.trace == old(h.trace) + ReapEvents(results[..n + 1])
      decreases k - n
    {
      result := h.WaitAny();
      n := n + 1;
      ReapEventsAppend(results[..n], [results[n]]);
      assert results[..n + 1] == results[..n] + [results[n]];
    }
  }

  // ---------------------------------------------------------------- setup_container_process

  datatype InitOutcome = Exited(code: int) | StillWaiting

  /** The calls the container process makes, how it ends, and what is left of its waitpid script. */
  datatype InitRun = InitRun(events: seq<Event>, outcome: InitOutcome, pending: seq<int>)

  /** Every step whose failure ends the container process succeeds. */
  predicate Ready(o: Outcomes)
  {
    o.unshareOk && o.netnsOpenOk && o.chdirOk && o.chrootOk && o.mountOk && o.forkOk
  }

  /**
   * From unshare(CLONE_NEWIPC) to fork: the calls made, up to and including
   * the first that fails fatally.
   */
  function Preparation(o: Outcomes, p: Config.Params): seq<Event>
  {
    Joining(o) + (if o.unshareOk && o.netnsOpenOk then Entering(o, p) else [])
  }

  /**
   * unshare(CLONE_NEWIPC), open the network namespace file, setns. A failed
   * setns is reported and ignored; the namespace descriptor is closed either way.
   */
  function Joining(o: Outcomes): seq<Event>
  {
    if !o.unshareOk then [Unshare(false)]
    else if !o.netnsOpenOk then [Unshare(true), OpenNetns(false)]
    else [Unshare(true), OpenNetns(true), Setns(o.setnsOk), CloseNetns]
  }

  /** chdir to the container root, chroot("./"), mount /proc, fork. */
  function Entering(o: Outcomes, p: Config.Params): seq<Event>
  {
    if !o.chdirOk then [Chdir(p.rootPath, false)]
    else if !o.chrootOk then [Chdir(p.rootPath, true), Chroot(false)]
    else if !o.mountOk then [Chdir(p.rootPath, true), Chroot(true), MountProc(false)]
    else [Chdir(p.rootPath, true), Chroot(true), MountProc(true), Fork(o.forkOk)]
  }

  /**
   * After a successful fork: the child execs the user's command, and this
   * process, the init of the new PID namespace, reaps until one child is
   * gone, unmounts /proc (a failure only reported) and exits with 0.
   */
  function Supervision(o: Outcomes, p: Config.Params, pending: seq<int>): InitRun
  {
    match FirstReaped(pending)
    case None => InitRun([Exec(p.command, o.execOk)] + ReapEvents(pending), StillWaiting, [])
    case Some(k) =>
      InitRun([Exec(p.command, o.execOk)] + ReapEvents(pending[..k + 1]) + [Umount(o.umountOk)], Exited(EXIT_SUCCESS), pending[k + 1..])
  }

  /**
   * setup_container_process: it spins until the flag is up; every step of
   * the preparation but setns is fatal (exit status 1).
   */
  function InitSpec(o: Outcomes, p: Config.Params, flag: bool, pending: seq<int>): InitRun
  {
    if !flag then InitRun([], StillWaiting, pending)
    else if !Ready(o) then InitRun(Preparation(o, p), Exited(EXIT_FAILURE), pending)
    else
      var s := Supervision(o, p, pending);
      InitRun(Preparation(o, p) + s.events, s.outcome, s.pending)
  }

  /** unshare, open the network namespace, setns, close. */
  method JoinNamespaces(h: Host) returns (ok: bool)
    modifies h`trace
    ensures ok == (h.outcomes.unshareOk && h.outcomes.netnsOpenOk)
    ensures h.trace == old(h.trace) + Joining(h.outcomes)
  {
    ok := h.UnshareIpc();
    if !ok {
      return;
    }
    ok := h.OpenNetworkNamespace();
    if !ok {
      return;
    }
    var joined := h.JoinNetworkNamespace();
    h.CloseNetworkNamespace();
  }

  /** chdir, chroot, mount /proc, fork. */
  method EnterRoot(h: Host, p: Config.Params) returns (ok: bool)
    modifies h`trace
    ensures ok == (h.outcomes.chdirOk && h.outcomes.chrootOk && h.outcomes.mountOk && h.outcomes.forkOk)
    ensures h.trace == old(h.trace) + Entering(h.outcomes, p)
  {
    ok := h.ChangeDir(p.rootPath);
    if !ok {
      return;
    }
    ok := h.ChangeRoot();
    if !ok {
      return;
    }
    ok := h.MountProcFs();
    if !ok {
      return;
    }
    ok := h.ForkProcess();
  }

  /** execvp in the forked child, then zombie_slayer and umount("/proc"). */
  method Supervise(h: Host, p: Config.Params) returns (outcome: InitOutcome)
    requires Supervision(h.outcomes, p, h.pending).outcome.Exited?
    modifies h`pending, h`trace
    ensures var run := Supervision(h.outcomes, p, old(h.pending));
      outcome == run.outcome && h.pending == run.pending && h.trace == old(h.trace) + run.events
  {
    ghost var o, results := h.outcomes, h.pending;
    ghost var k := FirstReaped(results).value;
    ghost var run := InitRun([Exec(p.command, o.execOk)] + ReapEvents(results[..k + 1]) + [Umount(o.umountOk)],
      Exited(EXIT_SUCCESS), results[k + 1..]);
    assert Supervision(o, p, results) == run;
    var execed := h.ExecCommand(p.command);
    ZombieSlayer(h);
    assert h.trace == old(h.trace) + [Exec(p.command, o.execOk)] + ReapEvents(results[..k + 1]);
    var unmounted := h.UnmountProc();
    outcome := Exited(EXIT_SUCCESS);
  }

  method SetupContainerProcess(h: Host, p: Config.Params) returns (outcome: InitOutcome)
    requires InitSpec(h.outcomes, p, h.flag, h.pending).outcome.Exited?
    modifies h`pending, h`trace
    ensures var run := InitSpec(h.outcomes, p, old(h.flag), old(h.pending));
      outcome == run.outcome && h.pending == run.pending && h.trace == old(h.trace) + run.events
  {
    if !h.flag {
      // while (!(*cgroups_done)) {} never ends for this process
      assert false;
    }
    ghost var o := h.outcomes;
    var ok := JoinNamespaces(h);
    if !ok {
      assert Preparation(o, p) == Joining(o) + [];
      return Exited(EXIT_FAILURE);
    }
    ok := EnterRoot(h, p);
    assert h.trace == old(h.trace) + Preparation(o, p);
    if !ok {
      return Exited(EXIT_FAILURE);
    }
    outcome := Supervise(h, p);
  }

  /** Events of the container process (as opposed to main's). */
  predicate InContainer(e: Event)
  {
    e.Unshare? || e.OpenNetns? || e.Setns? || e.CloseNetns? || e.Chdir? || e.Chroot? ||
    e.MountProc? || e.Fork? || e.Exec? || e.Reap? || e.Umount?
  }

  /** The preparation makes no exec and only calls of the container process. */
  lemma PreparationKinds(o: Outcomes, p: Config.Params)
    ensures forall e :: e in Preparation(o, p) ==> InContainer(e) && !e.Exec?
  {
  }

  /** The user's command is exec'd exactly when the process was released and every fatal step succeeded. */
  lemma InitExecsOnlyWhenReady(o: Outcomes, p: Config.Params, flag: bool, pending: seq<int>)
    ensures (exists e :: e in InitSpec(o, p, flag, pending).events && e.Exec?) <==> flag && Ready(o)
    ensures forall e :: e in InitSpec(o, p, flag, pending).events ==> InContainer(e)
  {
    PreparationKinds(o, p);
    ReapEventsAt(pending);
    if FirstReaped(pending).Some? {
      ReapEventsAt(pending[..FirstReaped(pending).value + 1]);
    }
    var run := InitSpec(o, p, flag, pending);
    if flag && Ready(o) {
      var s := Supervision(o, p, pending);
      assert s.events[0].Exec? && s.events[0] == run.events[|Preparation(o, p)|];
    }
  }

  /**
   * The container process exits with 1 exactly when a fatal step fails, and
   * with 0 exactly when it reaped a child; setns, exec and umount failures
   * do not change its exit status.
   */
  lemma InitExitStatus(o: Outcomes, p: Config.Params, pending: seq<int>)
    ensures InitSpec(o, p, true, pending).outcome == Exited(EXIT_FAILURE) <==> !Ready(o)
    ensures InitSpec(o, p, true, pending).outcome == Exited(EXIT_SUCCESS) <==> Ready(o) && FirstReaped(pending).Some?
    ensures InitSpec(o.(setnsOk := !o.setnsOk, execOk := !o.execOk, umountOk := !o.umountOk), p, true, pending).outcome ==
      InitSpec(o, p, true, pending).outcome
  {
  }

  /**
   * chroot("./") is made only right after a successful chdir into the
   * container root, and the fork only right after /proc was mounted.
   */
  lemma PreparationOrder(o: Outcomes, p: Config.Params, i: nat)
    requires i < |Preparation(o, p)|
    ensures Preparation(o, p)[i].Chroot? ==> i > 0 && Preparation(o, p)[i - 1] == Chdir(p.rootPath, true)
    ensures Preparation(o, p)[i].MountProc? ==> i > 0 && Preparation(o, p)[i - 1] == Chroot(true)
    ensures Preparation(o, p)[i].Fork? ==> i > 0 && Preparation(o, p)[i - 1] == MountProc(true)
  {
    if o.unshareOk && o.netnsOpenOk {
      var pre := [Unshare(true), OpenNetns(true), Setns(o.setnsOk), CloseNetns];
      if i >= 4 {
        assert Preparation(o, p)[i] == Entering(o, p)[i - 4];
        if i > 4 {
          assert Preparation(o, p)[i - 1] == Entering(o, p)[i - 5];
        }
      } else {
        assert Preparation(o, p)[i] == pre[i];
      }
    }
  }

  // ---------------------------------------------------------------- main

  datatype LaunchRun = LaunchRun(world: World, status: Status)

  /**
   * main after the parameters are settled, with the container's PID.
   */
  function AfterClone(f: Faults, o: Outcomes, w: World, p: Config.Params, pid: ChildPid): LaunchRun
  {
    var placed := Cgroups.SetupCgroupsSpec(f, w, p, pid);
    var released := placed.(flag := true, trace := placed.trace + [RaiseFlag]);
    var init := InitSpec(o, p, true, released.pending);
    var exited := released.(pending := init.pending, trace := released.trace + init.events);
    if init.outcome.StillWaiting? then LaunchRun(exited, Unfinished)
    else LaunchRun(WindDown(f, o, exited), Returned(EXIT_SUCCESS))
  }

  /** main once the container process has ended: waitpid, both munmap calls, clean_up_cgroups. */
  function WindDown(f: Faults, o: Outcomes, w: World): World
  {
    Cgroups.CleanUpSpec(f, w.(trace := w.trace +
      [Event.WaitContainer(o.containerWaitOk)] + [UnmapStack(o.stackUnmapped)] + [UnmapFlag(o.flagUnmapped)]))
  }

  /**
   * main: settle the parameters (a failure there ends main with 1 before
   * anything else happens), map the stack (a failure only reported) and the
   * flag, clone (a failure ends main with 1), put the container into its
   * cgroups, raise the flag, wait for it, unmap both mappings, remove the
   * cgroups and return 0, whatever became of the container.
   */
  function LaunchSpec(f: Faults, o: Outcomes, w: World, argv: seq<string>, config: Config.ConfigFile): LaunchRun
  {
    match Config.LaunchParams(argv, config)
    case Failure(_) => LaunchRun(w, Returned(EXIT_FAILURE))
    case Success(p) => Started(f, o, w, p)
  }

  /** main once the parameters are settled: mmap the stack and the flag, clone, and go on if that worked. */
  function Started(f: Faults, o: Outcomes, w: World, p: Config.Params): LaunchRun
  {
    var cloned := w.(flag := false, trace := w.trace + [MapStack(o.stackMapped), MapFlag, Event.Clone(o.cloned)]);
    if o.cloned.None? then LaunchRun(cloned, Returned(EXIT_FAILURE))
    else AfterClone(f, o, cloned, p, o.cloned.value)
  }

  /** main up to the clone: argv and the config file settle the parameters. */
  method SettleParams(argv: seq<string>, config: Config.ConfigFile) returns (r: Result<Config.Params, Config.LaunchError>)
    ensures r == Config.LaunchParams(argv, config)
  {
    if |argv| < 3 {
      return Failure(Config.Usage);
    }
    var options := Config.InitialParams(argv);
    if |argv| == 4 {
      match config
      case Unopenable =>
        return Failure(Config.ConfigUnopenable);
      case ReadFails =>
        return Failure(Config.ConfigUnreadable);
      case ReadBytes(file) =>
        var buff := new char[Config.CONFIG_BUFFER_SIZE];
        var bytesRead := Config.ReadConfigBuffer(file, buff);
        if bytesRead == 0 {
          return Failure(Config.ConfigUnreadable);
        }
        var parsed := Config.ApplyConfig(options, buff[..bytesRead]);
        if parsed.Failure? {
          return Failure(Config.BadConfig(parsed.error));
        }
        options := parsed.value;
    }
    return Success(options);
  }

  /** main after a successful clone: cgroups, the flag, the wait, the unmapping, the cleanup. */
  method ReleaseAndWait(h: Host, p: Config.Params, pid: ChildPid) returns (exit: int)
    requires AfterClone(h.faults, h.outcomes, h.State(), p, pid).status.Returned?
    modifies h
    ensures var run := AfterClone(h.faults, h.outcomes, old(h.State()), p, pid);
      h.State() == run.world && exit == run.status.value
  {
    ghost var f, o := h.faults, h.outcomes;
    Cgroups.SetupCgroups(h, p, pid);
    ghost var placed := Cgroups.SetupCgroupsSpec(f, old(h.State()), p, pid);
    assert h.State() == placed;
    h.SetFlag();
    ghost var released := placed.(flag := true, trace := placed.trace + [RaiseFlag]);
    assert h.State() == released;
    var containerExit := SetupContainerProcess(h, p);
    ghost var init := InitSpec(o, p, true, released.pending);
    assert h.State() == released.(pending := init.pending, trace := released.trace + init.events);
    ghost var exited := released.(pending := init.pending, trace := released.trace + init.events);
    var waited := h.WaitContainer();
    var unmapped := h.MunmapStack();
    unmapped := h.MunmapFlag();
    Cgroups.CleanUpCgroups(h);
    return EXIT_SUCCESS;
  }

  method Launch(h: Host, argv: seq<string>, config: Config.ConfigFile) returns (exit: int)
    requires LaunchSpec(h.faults, h.outcomes, h.State(), argv, config).status.Returned?
    modifies h
    ensures var run := LaunchSpec(h.faults, h.outcomes, old(h.State()), argv, config);
      h.State() == run.world && exit == run.status.value
  {
    var params := SettleParams(argv, config);
    if params.Failure? {
      return EXIT_FAILURE;
    }
    ghost var w := h.State();
    var stackMapped := h.MmapStack();
    h.MmapFlag();
    var childPid := h.Clone();
    ghost var cloned := w.(flag := false, trace := w.trace + [MapStack(h.outcomes.stackMapped), MapFlag, Event.Clone(h.outcomes.cloned)]);
    assert h.State() == cloned;
    if childPid == -1 {
      return EXIT_FAILURE;
    }
    exit := ReleaseAndWait(h, params.value, childPid as ChildPid);
  }

  // ---------------------------------------------------------------- properties of a launch

  /**
   * The trace has the flag raised at n, with no container call and no other
   * flag store before it, and no cgroup write and no other flag store after it.
   */
  predicate FlagSplits(tr: seq<Event>, n: nat)
  {
    n < |tr| && tr[n] == RaiseFlag &&
    (forall i :: 0 <= i < n ==> !InContainer(tr[i]) && tr[i] != RaiseFlag) &&
    (forall i :: n < i < |tr| ==> !tr[i].Write? && tr[i] != RaiseFlag)
  }

  lemma FlagSplitsExtend(tr: seq<Event>, n: nat, ext: seq<Event>)
    requires FlagSplits(tr, n)
    requires forall i :: 0 <= i < |ext| ==> !ext[i].Write? && ext[i] != RaiseFlag
    ensures FlagSplits(tr + ext, n)
  {
    forall i | n < i < |tr + ext| ensures !(tr + ext)[i].Write? && (tr + ext)[i] != RaiseFlag {
      if i >= |tr| {
        assert (tr + ext)[i] == ext[i - |tr|];
      }
    }
  }

  /** Setup makes neither a container call nor a flag store, so the flag it then raises splits the trace. */
  lemma RaiseSplits(f: Faults, w: World, p: Config.Params, pid: ChildPid)
    requires forall i :: 0 <= i < |w.trace| ==> !InContainer(w.trace[i]) && w.trace[i] != RaiseFlag
    ensures var placed := Cgroups.SetupCgroupsSpec(f, w, p, pid);
      FlagSplits(placed.trace + [RaiseFlag], |placed.trace|) && placed.pending == w.pending
  {
    var placed := Cgroups.SetupCgroupsSpec(f, w, p, pid);
    Cgroups.SetupCgroupsEvents(f, w, p, pid);
    forall i | 0 <= i < |placed.trace| ensures !InContainer(placed.trace[i]) && placed.trace[i] != RaiseFlag {
      if i < |w.trace| {
        assert placed.trace[i] == placed.trace[..|w.trace|][i];
      }
    }
  }

  lemma InitSplits(tr: seq<Event>, n: nat, o: Outcomes, p: Config.Params, pending: seq<int>)
    requires FlagSplits(tr, n)
    ensures FlagSplits(tr + InitSpec(o, p, true, pending).events, n)
  {
    var events := InitSpec(o, p, true, pending).events;
    InitExecsOnlyWhenReady(o, p, true, pending);
    forall i | 0 <= i < |events| ensures !events[i].Write? && events[i] != RaiseFlag {
      assert InContainer(events[i]);
    }
    FlagSplitsExtend(tr, n, events);
  }

  lemma WindDownSplits(f: Faults, o: Outcomes, w: World, n: nat)
    requires FlagSplits(w.trace, n)
    ensures FlagSplits(WindDown(f, o, w).trace, n)
  {
    var tail := [Event.WaitContainer(o.containerWaitOk), UnmapStack(o.stackUnmapped), UnmapFlag(o.flagUnmapped)];
    FlagSplitsExtend(w.trace, n, tail);
    var unmapped := w.(trace := w.trace + tail);
    assert unmapped.trace == w.trace + [Event.WaitContainer(o.containerWaitOk)] +
      [UnmapStack(o.stackUnmapped)] + [UnmapFlag(o.flagUnmapped)];
    var out := Cgroups.CleanUpSpec(f, unmapped);
    Cgroups.CleanUpEvents(f, unmapped);
    var rmdirs := out.trace[|unmapped.trace|..];
    assert out.trace == unmapped.trace + rmdirs;
    FlagSplitsExtend(unmapped.trace, n, rmdirs);
  }

  /** After the clone, the flag goes up once, after every cgroup write and before every call of the container process. */
  lemma AfterCloneSplits(f: Faults, o: Outcomes, w: World, p: Config.Params, pid: ChildPid)
    requires forall i :: 0 <= i < |w.trace| ==> !InContainer(w.trace[i]) && w.trace[i] != RaiseFlag
    ensures FlagSplits(AfterClone(f, o, w, p, pid).world.trace, |Cgroups.SetupCgroupsSpec(f, w, p, pid).trace|)
  {
    var placed := Cgroups.SetupCgroupsSpec(f, w, p, pid);
    RaiseSplits(f, w, p, pid);
    var n := |placed.trace|;
    var init := InitSpec(o, p, true, w.pending);
    InitSplits(placed.trace + [RaiseFlag], n, o, p, w.pending);
    if init.outcome.Exited? {
      var exited := placed.(flag := true, pending := init.pending, trace := placed.trace + [RaiseFlag] + init.events);
      WindDownSplits(f, o, exited, n);
    }
  }

  /** What the split says about the order of the two processes' calls. */
  lemma FlagSplitOrders(tr: seq<Event>, n: nat)
    requires FlagSplits(tr, n)
    ensures forall j :: 0 <= j < |tr| && InContainer(tr[j]) ==> RaiseFlag in tr[..j]
    ensures forall i, j :: 0 <= i < |tr| && 0 <= j < |tr| && tr[i].Write? && tr[j] == RaiseFlag ==> i < j
  {
    forall j | 0 <= j < |tr| && InContainer(tr[j]) ensures RaiseFlag in tr[..j] {
      assert tr[..j][n] == RaiseFlag;
    }
  }

  /**
   * cgroups_done orders the two processes: every call the container process
   * makes comes after the flag is raised, and every cgroup write before it.
   */
  lemma FlagOrdersProcesses(f: Faults, o: Outcomes, w: World, p: Config.Params)
    requires w.trace == []
    ensures var tr := Started(f, o, w, p).world.trace;
      (forall j :: 0 <= j < |tr| && InContainer(tr[j]) ==> RaiseFlag in tr[..j]) &&
      (forall i, j :: 0 <= i < |tr| && 0 <= j < |tr| && tr[i].Write? && tr[j] == RaiseFlag ==> i < j)
  {
    if o.cloned.Some? {
      var cloned := w.(flag := false, trace := w.trace + [MapStack(o.stackMapped), MapFlag, Event.Clone(o.cloned)]);
      AfterCloneSplits(f, o, cloned, p, o.cloned.value);
      FlagSplitOrders(AfterClone(f, o, cloned, p, o.cloned.value).world.trace,
        |Cgroups.SetupCgroupsSpec(f, cloned, p, o.cloned.value).trace|);
    }
  }

  /**
   * main returns 1 exactly when the parameters cannot be settled or the clone
   * fails, and 0 whenever the container process ends, whatever its own status.
   */
  lemma LaunchExitStatus(f: Faults, o: Outcomes, w: World, argv: seq<string>, config: Config.ConfigFile)
    ensures LaunchSpec(f, o, w, argv, config).status == Returned(EXIT_FAILURE) <==>
      Config.LaunchParams(argv, config).Failure? || o.cloned.None?
    ensures LaunchSpec(f, o, w, argv, config).status == Returned(EXIT_SUCCESS) <==>
      Config.LaunchParams(argv, config).Success? && o.cloned.Some? &&
      InitSpec(o, Config.LaunchParams(argv, config).value, true, w.pending).outcome.Exited?
  {
    var params := Config.LaunchParams(argv, config);
    if params.Success? && o.cloned.Some? {
      var cloned := w.(flag := false, trace := w.trace + [MapStack(o.stackMapped), MapFlag, Event.Clone(o.cloned)]);
      Cgroups.SetupCgroupsEvents(f, cloned, params.value, o.cloned.value);
      assert LaunchSpec(f, o, w, argv, config) == AfterClone(f, o, cloned, params.value, o.cloned.value);
    }
  }

  /**
   * A launch that gets past its parameters and returns, starting with none of the three groups and with
   * every rmdir allowed, leaves the directory tree as it found it.
   */
  lemma LaunchLeavesNoGroups(f: Faults, o: Outcomes, w: World, p: Config.Params)
    requires Cgroups.Fresh(w)
    requires Cgroups.MEMORY_GROUP !in f.rmdirFails && Cgroups.PID_GROUP !in f.rmdirFails && Cgroups.CPU_GROUP !in f.rmdirFails
    requires Started(f, o, w, p).status.Returned?
    ensures Started(f, o, w, p).world.dirs == w.dirs
  {
    if o.cloned.Some? {
      var pid := o.cloned.value;
      var cloned := w.(flag := false, trace := w.trace + [MapStack(o.stackMapped), MapFlag, Event.Clone(o.cloned)]);
      var placed := Cgroups.SetupCgroupsSpec(f, cloned, p, pid);
      Cgroups.SetupCgroupsDirs(f, cloned, p, pid);
      var init := InitSpec(o, p, true, placed.pending);
      var exited := placed.(flag := true, pending := init.pending, trace := placed.trace + [RaiseFlag] + init.events);
      var unmapped := exited.(trace := exited.trace +
        [Event.WaitContainer(o.containerWaitOk)] + [UnmapStack(o.stackUnmapped)] + [UnmapFlag(o.flagUnmapped)]);
      Cgroups.CleanUpDirs(f, unmapped);
      assert WindDown(f, o, exited) == Cgroups.CleanUpSpec(f, unmapped);
    }
  }
}
