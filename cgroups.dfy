/**
 * The cgroup (v1) work main does on the container's behalf: one directory
 * per controller (memory, pids, cpu), its limit files and its cgroup.procs,
 * written before the container is released; and the three directories
 * removed after it has exited.
 */
module Cgroups {
  import opened Common
  import opened Format
  import opened Host
  import Config

  const CGROUP_MEMORY_DIR: string := "/sys/fs/cgroup/memory/drydock"
  const CGROUP_MEMORY_PROCS: string := "/sys/fs/cgroup/memory/drydock/cgroup.procs"
  const CGROUP_MEMORY_LIMIT: string := "/sys/fs/cgroup/memory/drydock/memory.limit_in_bytes"
  const CGROUP_MEM_PLUS_SWAP_LIMIT: string := "/sys/fs/cgroup/memory/drydock/memory.memsw.limit_in_bytes"

  const CGROUP_PID_DIR: string := "/sys/fs/cgroup/pids/drydock/"
  const CGROUP_PID_PROCS: string := "/sys/fs/cgroup/pids/drydock/cgroup.procs"
  const CGROUP_PID_LIMIT: string := "/sys/fs/cgroup/pids/drydock/pids.max"

  const CGROUP_CPU_DIR: string := "/sys/fs/cgroup/cpu/drydock/"
  const CGROUP_CPU_PROCS: string := "/sys/fs/cgroup/cpu/drydock/cgroup.procs"
  const CGROUP_CPU_PERIOD: string := "/sys/fs/cgroup/cpu/drydock/cpu.cfs_period_us"
  const CGROUP_CPU_QUOTA: string := "/sys/fs/cgroup/cpu/drydock/cpu.cfs_quota_us"

  /** The names clean_up_cgroups removes, without the trailing slash two of the mkdir paths carry. */
  const MEMORY_GROUP: string := "/sys/fs/cgroup/memory/drydock"
  const PID_GROUP: string := "/sys/fs/cgroup/pids/drydock"
  const CPU_GROUP: string := "/sys/fs/cgroup/cpu/drydock"

  /** One control file and the bytes meant for it. */
  datatype Control = Control(path: string, data: string)

  function MemoryControls(p: Config.Params, pidRecord: string): seq<Control>
  {
    [Control(CGROUP_MEMORY_LIMIT, p.memLimit),
     Control(CGROUP_MEM_PLUS_SWAP_LIMIT, p.memPlusSwapLimit),
     Control(CGROUP_MEMORY_PROCS, pidRecord)]
  }

  function PidControls(p: Config.Params, pidRecord: string): seq<Control>
  {
    [Control(CGROUP_PID_LIMIT, p.pidLimit),
     Control(CGROUP_PID_PROCS, pidRecord)]
  }

  function CpuControls(p: Config.Params, pidRecord: string): seq<Control>
  {
    [Control(CGROUP_CPU_PERIOD, p.cpuPeriod),
     Control(CGROUP_CPU_QUOTA, p.cpuQuota),
     Control(CGROUP_CPU_PROCS, pidRecord)]
  }

  // ---------------------------------------------------------------- specification

  /** The calls one fopen / fwrite / fclose block makes: a file that will not open is skipped. */
  function ControlEvents(f: Faults, c: Control): seq<Event>
  {
    if c.path in f.openFails then [Open(c.path, false)]
    else [Open(c.path, true), Write(c.path, c.data, Accepted(f, c.path, c.data)), Close(c.path, c.path !in f.closeFails)]
  }

  function ControlsEvents(f: Faults, cs: seq<Control>): seq<Event>
    decreases |cs|
  {
    if cs == [] then [] else ControlEvents(f, cs[0]) + ControlsEvents(f, cs[1..])
  }

  /** What one block leaves in the control file: "w" truncates, then fwrite's bytes. */
  function ControlFiles(f: Faults, files: map<string, string>, c: Control): map<string, string>
  {
    if c.path in f.openFails then files else files[c.path := c.data[..Accepted(f, c.path, c.data)]]
  }

  function ControlsFiles(f: Faults, files: map<string, string>, cs: seq<Control>): map<string, string>
    decreases |cs|
  {
    if cs == [] then files else ControlsFiles(f, ControlFiles(f, files, cs[0]), cs[1..])
  }

  /**
   * One setup_*_cgroup: mkdir the group; if that fails (including because it
   * already exists) nothing else is done; otherwise every control file is
   * written in turn, a failure with one not stopping the next.
   */
  function ControllerSpec(f: Faults, w: World, dir: string, cs: seq<Control>): World
  {
    if MkdirOk(f, w.dirs, dir) then
      w.(dirs := w.dirs + {DirKey(dir)},
         files := ControlsFiles(f, w.files, cs),
         trace := w.trace + [Mkdir(dir, true)] + ControlsEvents(f, cs))
    else w.(trace := w.trace + [Mkdir(dir, false)])
  }

  /** setup_cgroups: the memory, pids and cpu groups in that order, all given the same PID record. */
  function SetupCgroupsSpec(f: Faults, w: World, p: Config.Params, pid: ChildPid): World
  {
    var record := PidRecord(pid);
    var w1 := ControllerSpec(f, w, CGROUP_MEMORY_DIR, MemoryControls(p, record));
    var w2 := ControllerSpec(f, w1, CGROUP_PID_DIR, PidControls(p, record));
    ControllerSpec(f, w2, CGROUP_CPU_DIR, CpuControls(p, record))
  }

  function RmdirSpec(f: Faults, w: World, path: string): World
  {
    var ok := RmdirOk(f, w.dirs, path);
    w.(dirs := if ok then w.dirs - {DirKey(path)} else w.dirs, trace := w.trace + [Event.Rmdir(path, ok)])
  }

  /** clean_up_cgroups: all three groups are removed, whatever happened to the others. */
  function CleanUpSpec(f: Faults, w: World): World
  {
    RmdirSpec(f, RmdirSpec(f, RmdirSpec(f, w, MEMORY_GROUP), PID_GROUP), CPU_GROUP)
  }

  // ---------------------------------------------------------------- properties

  /** Whether key holds the same thing (or nothing) in both maps. */
  predicate SameAt(m: map<string, string>, m': map<string, string>, key: string)
  {
    (key in m <==> key in m') && (key in m ==> m[key] == m'[key])
  }

  predicate DistinctPaths(cs: seq<Control>)
  {
    forall i, j :: 0 <= i < j < |cs| ==> cs[i].path != cs[j].path
  }

  /** No control in cs is for the file key. */
  predicate NotAmong(cs: seq<Control>, key: string)
  {
    forall i :: 0 <= i < |cs| ==> cs[i].path != key
  }

  /** A file none of the blocks is for keeps what it had. */
  lemma {:induction false} ControlsFilesElsewhere(f: Faults, files: map<string, string>, cs: seq<Control>, key: string)
    requires NotAmong(cs, key)
    ensures SameAt(ControlsFiles(f, files, cs), files, key)
    decreases |cs|
  {
    if cs != [] {
      assert cs[0].path != key;
      assert NotAmong(cs[1..], key) by {
        forall i | 0 <= i < |cs[1..]| ensures cs[1..][i].path != key {
          assert cs[1..][i] == cs[i + 1];
        }
      }
      ControlsFilesElsewhere(f, ControlFiles(f, files, cs[0]), cs[1..], key);
    }
  }

  /**
   * Each control file ends up with exactly what its own block wrote (the
   * vanished bytes of a short write are lost) or, when it would not open,
   * keeps what it had.
   */
  lemma {:induction false} ControlsFilesEffect(f: Faults, files: map<string, string>, cs: seq<Control>)
    requires DistinctPaths(cs)
    ensures var out := ControlsFiles(f, files, cs);
      (forall i :: 0 <= i < |cs| && cs[i].path !in f.openFails ==>
        cs[i].path in out && out[cs[i].path] == cs[i].data[..Accepted(f, cs[i].path, cs[i].data)]) &&
      (forall i :: 0 <= i < |cs| && cs[i].path in f.openFails ==> SameAt(out, files, cs[i].path))
    decreases |cs|
  {
    if cs != [] {
      var files1 := ControlFiles(f, files, cs[0]);
      assert DistinctPaths(cs[1..]) by {
        forall i, j | 0 <= i < j < |cs[1..]| ensures cs[1..][i].path != cs[1..][j].path {
          assert cs[1..][i] == cs[i + 1] && cs[1..][j] == cs[j + 1];
        }
      }
      ControlsFilesEffect(f, files1, cs[1..]);
      var out := ControlsFiles(f, files, cs);
      assert out == ControlsFiles(f, files1, cs[1..]);
      assert NotAmong(cs[1..], cs[0].path) by {
        forall i | 0 <= i < |cs[1..]| ensures cs[1..][i].path != cs[0].path {
          assert cs[1..][i] == cs[i + 1];
        }
      }
      ControlsFilesElsewhere(f, files1, cs[1..], cs[0].path);
      forall i | 0 < i < |cs| ensures cs[1..][i - 1] == cs[i] {}
    }
  }

  /** The paths of the files opened, in the order of the calls. */
  function Opened(events: seq<Event>): seq<string>
  {
    if events == [] then []
    else (if events[0].Open? then [events[0].path] else []) + Opened(events[1..])
  }

  function Paths(cs: seq<Control>): seq<string>
  {
    if cs == [] then [] else [cs[0].path] + Paths(cs[1..])
  }

  lemma {:induction false} OpenedAppend(a: seq<Event>, b: seq<Event>)
    ensures Opened(a + b) == Opened(a) + Opened(b)
    decreases |a|
  {
    if a != [] {
      assert (a + b)[0] == a[0] && (a + b)[1..] == a[1..] + b;
      OpenedAppend(a[1..], b);
      var head := if a[0].Open? then [a[0].path] else [];
      assert Opened(a + b) == head + Opened(a[1..] + b);
      assert head + (Opened(a[1..]) + Opened(b)) == (head + Opened(a[1..])) + Opened(b);
    } else {
      assert a + b == b;
    }
  }

  /** Every control file is tried exactly once, in the order of the source, whatever failed before it. */
  lemma {:induction false} EveryControlTried(f: Faults, cs: seq<Control>)
    ensures Opened(ControlsEvents(f, cs)) == Paths(cs)
    decreases |cs|
  {
    if cs != [] {
      OpenedAppend(ControlEvents(f, cs[0]), ControlsEvents(f, cs[1..]));
      EveryControlTried(f, cs[1..]);
      var e := ControlEvents(f, cs[0]);
      if cs[0].path in f.openFails {
        assert Opened(e) == [cs[0].path] + Opened([]);
      } else {
        assert e[1..][1..][1..] == [];
        assert Opened(e[1..][1..]) == [] + Opened(e[1..][1..][1..]);
        assert Opened(e[1..]) == [] + Opened(e[1..][1..]);
        assert Opened(e) == [cs[0].path] + Opened(e[1..]);
      }
    }
  }

  /** None of the three group directories exists yet. */
  predicate Fresh(w: World)
  {
    MEMORY_GROUP !in w.dirs && PID_GROUP !in w.dirs && CPU_GROUP !in w.dirs
  }

  /** Whether setup's mkdir of group succeeds: the group is not left over and its mkdir is not faulted. */
  predicate Created(f: Faults, w: World, group: string)
  {
    group !in w.dirs && group !in f.mkdirFails
  }

  predicate Faultless(f: Faults)
  {
    f.mkdirFails == {} && f.openFails == {} && f.shortWrites == map[] && f.closeFails == {}
  }

  lemma ControlPathsDistinct(p: Config.Params, record: string)
    ensures DistinctPaths(MemoryControls(p, record))
    ensures DistinctPaths(PidControls(p, record))
    ensures DistinctPaths(CpuControls(p, record))
  {
  }

  lemma {:induction false} ControllerFilesHealthy(f: Faults, w: World, dir: string, cs: seq<Control>)
    requires Faultless(f) && DirKey(dir) !in w.dirs && DistinctPaths(cs)
    ensures var out := ControllerSpec(f, w, dir, cs);
      out.dirs == w.dirs + {DirKey(dir)} &&
      (forall i :: 0 <= i < |cs| ==> cs[i].path in out.files && out.files[cs[i].path] == cs[i].data)
  {
    ControlsFilesEffect(f, w.files, cs);
    forall i | 0 <= i < |cs| ensures cs[i].data[..Accepted(f, cs[i].path, cs[i].data)] == cs[i].data {
      assert cs[i].data[..|cs[i].data|] == cs[i].data;
    }
  }

  /** A controller's step writes at most its own control files, whatever fails. */
  lemma ControllerElsewhere(f: Faults, w: World, dir: string, cs: seq<Control>, key: string)
    requires NotAmong(cs, key)
    ensures SameAt(ControllerSpec(f, w, dir, cs).files, w.files, key)
  {
    ControlsFilesElsewhere(f, w.files, cs, key);
  }

  /** Every control in cs lies in the group whose name has ch as the character at index 15. */
  predicate AllUnder(cs: seq<Control>, ch: char)
  {
    forall i :: 0 <= i < |cs| ==> |cs[i].path| > 15 && cs[i].path[15] == ch
  }

  /** Every control in cs is a file directly inside the group directory named group. */
  predicate Inside(cs: seq<Control>, group: string)
  {
    forall i :: 0 <= i < |cs| ==> group + "/" <= cs[i].path
  }

  /** The control paths of one controller all lie under its own directory, and the three directory names differ at index 15. */
  lemma ControllersApart(p: Config.Params, record: string)
    ensures Inside(MemoryControls(p, record), MEMORY_GROUP) && AllUnder(MemoryControls(p, record), 'm')
    ensures Inside(PidControls(p, record), PID_GROUP) && AllUnder(PidControls(p, record), 'p')
    ensures Inside(CpuControls(p, record), CPU_GROUP) && AllUnder(CpuControls(p, record), 'c')
    ensures MEMORY_GROUP[15] == 'm' && PID_GROUP[15] == 'p' && CPU_GROUP[15] == 'c'
  {
  }

  lemma Apart(cs: seq<Control>, ch: char, key: string)
    requires AllUnder(cs, ch) && |key| > 15 && key[15] != ch
    ensures NotAmong(cs, key)
  {
  }

  /** The stages of setup_cgroups. */
  function Stages(f: Faults, w: World, p: Config.Params, pid: ChildPid): (s: (World, World, World))
    ensures s.2 == SetupCgroupsSpec(f, w, p, pid)
  {
    var record := PidRecord(pid);
    var w1 := ControllerSpec(f, w, CGROUP_MEMORY_DIR, MemoryControls(p, record));
    var w2 := ControllerSpec(f, w1, CGROUP_PID_DIR, PidControls(p, record));
    (w1, w2, ControllerSpec(f, w2, CGROUP_CPU_DIR, CpuControls(p, record)))
  }

  /** With nothing failing and no group left over, the memory files hold the memory limits and the PID. */
  lemma SetupMemoryHealthy(f: Faults, w: World, p: Config.Params, pid: ChildPid)
    requires Faultless(f) && Fresh(w)
    ensures var files := SetupCgroupsSpec(f, w, p, pid).files;
      CGROUP_MEMORY_LIMIT in files && files[CGROUP_MEMORY_LIMIT] == p.memLimit &&
      CGROUP_MEM_PLUS_SWAP_LIMIT in files && files[CGROUP_MEM_PLUS_SWAP_LIMIT] == p.memPlusSwapLimit &&
      CGROUP_MEMORY_PROCS in files && files[CGROUP_MEMORY_PROCS] == PidRecord(pid)
  {
    var record := PidRecord(pid);
    var mem, pids, cpu := MemoryControls(p, record), PidControls(p, record), CpuControls(p, record);
    var (w1, w2, w3) := Stages(f, w, p, pid);
    ControlPathsDistinct(p, record);
    ControllersApart(p, record);
    GroupNames();
    ControllerFilesHealthy(f, w, CGROUP_MEMORY_DIR, mem);
    forall i | 0 <= i < |mem| ensures SameAt(w3.files, w1.files, mem[i].path) {
      Apart(pids, 'p', mem[i].path);
      Apart(cpu, 'c', mem[i].path);
      ControllerElsewhere(f, w1, CGROUP_PID_DIR, pids, mem[i].path);
      ControllerElsewhere(f, w2, CGROUP_CPU_DIR, cpu, mem[i].path);
    }
    assert mem[0].path == CGROUP_MEMORY_LIMIT && mem[1].path == CGROUP_MEM_PLUS_SWAP_LIMIT && mem[2].path == CGROUP_MEMORY_PROCS;
  }

  /** ... the pids files hold the PID limit and the PID ... */
  lemma SetupPidHealthy(f: Faults, w: World, p: Config.Params, pid: ChildPid)
    requires Faultless(f) && Fresh(w)
    ensures var files := SetupCgroupsSpec(f, w, p, pid).files;
      CGROUP_PID_LIMIT in files && files[CGROUP_PID_LIMIT] == p.pidLimit &&
      CGROUP_PID_PROCS in files && files[CGROUP_PID_PROCS] == PidRecord(pid)
  {
    var record := PidRecord(pid);
    var pids, cpu := PidControls(p, record), CpuControls(p, record);
    var (w1, w2, w3) := Stages(f, w, p, pid);
    ControlPathsDistinct(p, record);
    ControllersApart(p, record);
    GroupNames();
    assert PID_GROUP !in w1.dirs;
    ControllerFilesHealthy(f, w1, CGROUP_PID_DIR, pids);
    forall i | 0 <= i < |pids| ensures SameAt(w3.files, w2.files, pids[i].path) {
      Apart(cpu, 'c', pids[i].path);
      ControllerElsewhere(f, w2, CGROUP_CPU_DIR, cpu, pids[i].path);
    }
    assert pids[0].path == CGROUP_PID_LIMIT && pids[1].path == CGROUP_PID_PROCS;
  }

  /** ... and the cpu files hold the period, the quota and the PID, with all three groups created. */
  lemma SetupCpuHealthy(f: Faults, w: World, p: Config.Params, pid: ChildPid)
    requires Faultless(f) && Fresh(w)
    ensures SetupCgroupsSpec(f, w, p, pid).dirs == w.dirs + {MEMORY_GROUP, PID_GROUP, CPU_GROUP}
    ensures var files := SetupCgroupsSpec(f, w, p, pid).files;
      CGROUP_CPU_PERIOD in files && files[CGROUP_CPU_PERIOD] == p.cpuPeriod &&
      CGROUP_CPU_QUOTA in files && files[CGROUP_CPU_QUOTA] == p.cpuQuota &&
      CGROUP_CPU_PROCS in files && files[CGROUP_CPU_PROCS] == PidRecord(pid)
  {
    var record := PidRecord(pid);
    var mem, pids, cpu := MemoryControls(p, record), PidControls(p, record), CpuControls(p, record);
    var (w1, w2, w3) := Stages(f, w, p, pid);
    ControlPathsDistinct(p, record);
    GroupNames();
    ControllerFilesHealthy(f, w, CGROUP_MEMORY_DIR, mem);
    ControllerFilesHealthy(f, w1, CGROUP_PID_DIR, pids);
    ControllerFilesHealthy(f, w2, CGROUP_CPU_DIR, cpu);
    assert cpu[0].path == CGROUP_CPU_PERIOD && cpu[1].path == CGROUP_CPU_QUOTA && cpu[2].path == CGROUP_CPU_PROCS;
  }

  /** Setting up the groups changes no file but the eight control files, whatever fails. */
  lemma SetupCgroupsElsewhere(f: Faults, w: World, p: Config.Params, pid: ChildPid, key: string)
    requires key !in ControlPaths()
    ensures SameAt(SetupCgroupsSpec(f, w, p, pid).files, w.files, key)
  {
    var record := PidRecord(pid);
    var w1 := ControllerSpec(f, w, CGROUP_MEMORY_DIR, MemoryControls(p, record));
    var w2 := ControllerSpec(f, w1, CGROUP_PID_DIR, PidControls(p, record));
    ControllerElsewhere(f, w, CGROUP_MEMORY_DIR, MemoryControls(p, record), key);
    ControllerElsewhere(f, w1, CGROUP_PID_DIR, PidControls(p, record), key);
    ControllerElsewhere(f, w2, CGROUP_CPU_DIR, CpuControls(p, record), key);
  }

  /**
   * What a controller leaves in each of its control files, measured from
   * before: when its mkdir succeeded (made) and the file opens, the bytes
   * fwrite took; otherwise whatever the file held before.
   */
  predicate Written(f: Faults, before: map<string, string>, after: map<string, string>, made: bool, cs: seq<Control>)
  {
    forall i :: 0 <= i < |cs| ==>
      if made && cs[i].path !in f.openFails then
        cs[i].path in after && after[cs[i].path] == cs[i].data[..Accepted(f, cs[i].path, cs[i].data)]
      else SameAt(after, before, cs[i].path)
  }

  lemma ControllerWritten(f: Faults, w: World, dir: string, cs: seq<Control>)
    requires DistinctPaths(cs)
    ensures Written(f, w.files, ControllerSpec(f, w, dir, cs).files, MkdirOk(f, w.dirs, dir), cs)
  {
    if MkdirOk(f, w.dirs, dir) {
      ControlsFilesEffect(f, w.files, cs);
    }
  }

  /** A later step that leaves the controller's files alone keeps what it wrote. */
  lemma WrittenKept(f: Faults, before: map<string, string>, mid: map<string, string>, after: map<string, string>,
                    made: bool, cs: seq<Control>)
    requires Written(f, before, mid, made, cs)
    requires forall i :: 0 <= i < |cs| ==> SameAt(after, mid, cs[i].path)
    ensures Written(f, before, after, made, cs)
  {
  }

  /** An earlier step that left the controller's files alone does not change what it is measured from. */
  lemma WrittenRebased(f: Faults, before: map<string, string>, mid: map<string, string>, after: map<string, string>,
                       made: bool, cs: seq<Control>)
    requires Written(f, mid, after, made, cs)
    requires forall i :: 0 <= i < |cs| ==> SameAt(mid, before, cs[i].path)
    ensures Written(f, before, after, made, cs)
  {
  }

  /** A controller's step leaves alone the files of a controller in another group. */
  lemma Untouched(f: Faults, w: World, dir: string, cs: seq<Control>, ch: char, others: seq<Control>, ch': char)
    requires AllUnder(cs, ch) && AllUnder(others, ch') && ch != ch'
    ensures forall i :: 0 <= i < |others| ==> SameAt(ControllerSpec(f, w, dir, cs).files, w.files, others[i].path)
  {
    forall i | 0 <= i < |others| ensures SameAt(ControllerSpec(f, w, dir, cs).files, w.files, others[i].path) {
      Apart(cs, ch, others[i].path);
      ControllerElsewhere(f, w, dir, cs, others[i].path);
    }
  }

  /**
   * For every fault plan, what setup leaves in all eight control files: each
   * holds the bytes fwrite took exactly when its group was created and the
   * file opened, and keeps what it had otherwise.
   */
  lemma SetupCgroupsFiles(f: Faults, w: World, p: Config.Params, pid: ChildPid)
    ensures var out := SetupCgroupsSpec(f, w, p, pid).files; var record := PidRecord(pid);
      Written(f, w.files, out, Created(f, w, MEMORY_GROUP), MemoryControls(p, record)) &&
      Written(f, w.files, out, Created(f, w, PID_GROUP), PidControls(p, record)) &&
      Written(f, w.files, out, Created(f, w, CPU_GROUP), CpuControls(p, record))
  {
    var record := PidRecord(pid);
    var mem, pids, cpu := MemoryControls(p, record), PidControls(p, record), CpuControls(p, record);
    var (w1, w2, w3) := Stages(f, w, p, pid);
    ControlPathsDistinct(p, record);
    ControllersApart(p, record);
    GroupNames();
    assert w1.dirs <= w.dirs + {MEMORY_GROUP} && w.dirs <= w1.dirs;
    assert w2.dirs <= w.dirs + {MEMORY_GROUP, PID_GROUP} && w.dirs <= w2.dirs;
    assert MkdirOk(f, w.dirs, CGROUP_MEMORY_DIR) == Created(f, w, MEMORY_GROUP);
    assert MkdirOk(f, w1.dirs, CGROUP_PID_DIR) == Created(f, w, PID_GROUP);
    assert MkdirOk(f, w2.dirs, CGROUP_CPU_DIR) == Created(f, w, CPU_GROUP);

    ControllerWritten(f, w, CGROUP_MEMORY_DIR, mem);
    Untouched(f, w1, CGROUP_PID_DIR, pids, 'p', mem, 'm');
    WrittenKept(f, w.files, w1.files, w2.files, Created(f, w, MEMORY_GROUP), mem);
    Untouched(f, w2, CGROUP_CPU_DIR, cpu, 'c', mem, 'm');
    WrittenKept(f, w.files, w2.files, w3.files, Created(f, w, MEMORY_GROUP), mem);

    ControllerWritten(f, w1, CGROUP_PID_DIR, pids);
    Untouched(f, w, CGROUP_MEMORY_DIR, mem, 'm', pids, 'p');
    WrittenRebased(f, w.files, w1.files, w2.files, Created(f, w, PID_GROUP), pids);
    Untouched(f, w2, CGROUP_CPU_DIR, cpu, 'c', pids, 'p');
    WrittenKept(f, w.files, w2.files, w3.files, Created(f, w, PID_GROUP), pids);

    ControllerWritten(f, w2, CGROUP_CPU_DIR, cpu);
    Untouched(f, w1, CGROUP_PID_DIR, pids, 'p', cpu, 'c');
    WrittenRebased(f, w1.files, w2.files, w3.files, Created(f, w, CPU_GROUP), cpu);
    Untouched(f, w, CGROUP_MEMORY_DIR, mem, 'm', cpu, 'c');
    WrittenRebased(f, w.files, w1.files, w3.files, Created(f, w, CPU_GROUP), cpu);
  }

  function ControlPaths(): set<string>
  {
    {CGROUP_MEMORY_LIMIT, CGROUP_MEM_PLUS_SWAP_LIMIT, CGROUP_MEMORY_PROCS, CGROUP_PID_LIMIT, CGROUP_PID_PROCS,
     CGROUP_CPU_PERIOD, CGROUP_CPU_QUOTA, CGROUP_CPU_PROCS}
  }

  lemma GroupNames()
    ensures DirKey(CGROUP_MEMORY_DIR) == MEMORY_GROUP && DirKey(CGROUP_PID_DIR) == PID_GROUP && DirKey(CGROUP_CPU_DIR) == CPU_GROUP
    ensures DirKey(MEMORY_GROUP) == MEMORY_GROUP && DirKey(PID_GROUP) == PID_GROUP && DirKey(CPU_GROUP) == CPU_GROUP
    ensures MEMORY_GROUP != PID_GROUP && MEMORY_GROUP != CPU_GROUP && PID_GROUP != CPU_GROUP
  {
    assert CGROUP_PID_DIR[..|CGROUP_PID_DIR| - 1] == PID_GROUP;
    assert CGROUP_CPU_DIR[..|CGROUP_CPU_DIR| - 1] == CPU_GROUP;
    assert MEMORY_GROUP[15] != PID_GROUP[15] && MEMORY_GROUP[15] != CPU_GROUP[15] && PID_GROUP[15] != CPU_GROUP[15];
  }

  /** A failed mkdir, such as EEXIST for a group left behind, leaves every file of that controller alone. */
  lemma ExistingGroupSkipped(f: Faults, w: World, dir: string, cs: seq<Control>)
    requires DirKey(dir) in w.dirs
    ensures ControllerSpec(f, w, dir, cs) == w.(trace := w.trace + [Mkdir(dir, false)])
  {
  }

  /** The PID record in each cgroup.procs is the container's PID in decimal and a NUL. */
  lemma ProcsRecordIsPid(pid: ChildPid)
    ensures var r := PidRecord(pid);
      AllDigits(r[..|r| - 1]) && DigitsValue(r[..|r| - 1]) == pid as nat && r[|r| - 1] == '\0'
  {
    PidRecordOfPositive(pid);
  }

  /** Setup creates only the group directories, and only those whose mkdir succeeds. */
  lemma {:induction false} SetupCgroupsDirs(f: Faults, w: World, p: Config.Params, pid: ChildPid)
    ensures var out := SetupCgroupsSpec(f, w, p, pid).dirs;
      w.dirs <= out <= w.dirs + {MEMORY_GROUP, PID_GROUP, CPU_GROUP} &&
      (MEMORY_GROUP in out - w.dirs <==> Created(f, w, MEMORY_GROUP)) &&
      (PID_GROUP in out - w.dirs <==> Created(f, w, PID_GROUP)) &&
      (CPU_GROUP in out - w.dirs <==> Created(f, w, CPU_GROUP))
  {
    GroupNames();
  }

  /** Cleanup takes away every group directory whose rmdir is not faulted, whatever happens to the others, and touches nothing else. */
  lemma CleanUpDirs(f: Faults, w: World)
    ensures CleanUpSpec(f, w).dirs == w.dirs - ({MEMORY_GROUP, PID_GROUP, CPU_GROUP} - f.rmdirFails)
    ensures CleanUpSpec(f, w).files == w.files
  {
    GroupNames();
  }

  /** A run that starts with none of the groups leaves the directory tree as it found it. */
  lemma SetupThenCleanUp(f: Faults, w: World, p: Config.Params, pid: ChildPid)
    requires Fresh(w)
    requires MEMORY_GROUP !in f.rmdirFails && PID_GROUP !in f.rmdirFails && CPU_GROUP !in f.rmdirFails
    ensures CleanUpSpec(f, SetupCgroupsSpec(f, w, p, pid)).dirs == w.dirs
  {
    SetupCgroupsDirs(f, w, p, pid);
    CleanUpDirs(f, SetupCgroupsSpec(f, w, p, pid));
    assert {MEMORY_GROUP, PID_GROUP, CPU_GROUP} - f.rmdirFails == {MEMORY_GROUP, PID_GROUP, CPU_GROUP};
  }

  /** The calls setup_cgroups and clean_up_cgroups make. */
  predicate CgroupCall(e: Event)
  {
    e.Mkdir? || e.Open? || e.Write? || e.Close? || e.Rmdir?
  }

  /** t extends w's trace by cgroup calls only. */
  predicate AddsCgroupCalls(t: seq<Event>, t': seq<Event>)
  {
    |t| <= |t'| && t'[..|t|] == t && forall i :: |t| <= i < |t'| ==> CgroupCall(t'[i])
  }

  lemma {:induction false} ControlsEventsKinds(f: Faults, cs: seq<Control>)
    ensures forall e :: e in ControlsEvents(f, cs) ==> CgroupCall(e) && !e.Rmdir?
    decreases |cs|
  {
    if cs != [] {
      ControlsEventsKinds(f, cs[1..]);
    }
  }

  lemma AddsTransitive(t: seq<Event>, t': seq<Event>, t'': seq<Event>)
    requires AddsCgroupCalls(t, t') && AddsCgroupCalls(t', t'')
    ensures AddsCgroupCalls(t, t'')
  {
    assert t''[..|t|] == t''[..|t'|][..|t|];
  }

  lemma ControllerEvents(f: Faults, w: World, dir: string, cs: seq<Control>)
    ensures var out := ControllerSpec(f, w, dir, cs);
      out.flag == w.flag && out.pending == w.pending && AddsCgroupCalls(w.trace, out.trace)
  {
    var out := ControllerSpec(f, w, dir, cs);
    ControlsEventsKinds(f, cs);
    forall i | |w.trace| <= i < |out.trace| ensures CgroupCall(out.trace[i]) {
      assert out.trace[i] in out.trace[|w.trace|..];
    }
    assert out.trace[..|w.trace|] == w.trace;
  }

  /** setup_cgroups touches neither the flag nor the container process, and makes only cgroup calls. */
  lemma SetupCgroupsEvents(f: Faults, w: World, p: Config.Params, pid: ChildPid)
    ensures var out := SetupCgroupsSpec(f, w, p, pid);
      out.flag == w.flag && out.pending == w.pending && AddsCgroupCalls(w.trace, out.trace)
  {
    var record := PidRecord(pid);
    var w1 := ControllerSpec(f, w, CGROUP_MEMORY_DIR, MemoryControls(p, record));
    var w2 := ControllerSpec(f, w1, CGROUP_PID_DIR, PidControls(p, record));
    ControllerEvents(f, w, CGROUP_MEMORY_DIR, MemoryControls(p, record));
    ControllerEvents(f, w1, CGROUP_PID_DIR, PidControls(p, record));
    ControllerEvents(f, w2, CGROUP_CPU_DIR, CpuControls(p, record));
    AddsTransitive(w.trace, w1.trace, w2.trace);
    AddsTransitive(w.trace, w2.trace, SetupCgroupsSpec(f, w, p, pid).trace);
  }

  /**
   * clean_up_cgroups makes exactly its three rmdir calls, memory, pids, cpu,
   * each succeeding or failing on its own group alone, and changes nothing
   * but the directories.
   */
  lemma CleanUpEvents(f: Faults, w: World)
    ensures var out := CleanUpSpec(f, w);
      out.files == w.files && out.flag == w.flag && out.pending == w.pending &&
      out.trace == w.trace + [Event.Rmdir(MEMORY_GROUP, RmdirOk(f, w.dirs, MEMORY_GROUP)),
                              Event.Rmdir(PID_GROUP, RmdirOk(f, w.dirs, PID_GROUP)),
                              Event.Rmdir(CPU_GROUP, RmdirOk(f, w.dirs, CPU_GROUP))]
  {
    GroupNames();
  }

  // ---------------------------------------------------------------- the code

  /** One fopen(path, "w") / fwrite / fclose block; a short write and a failed fclose are only reported. */
  method WriteControl(h: Host, c: Control)
    modifies h`files, h`trace
    ensures h.State() == old(h.State()).(files := ControlFiles(h.faults, old(h.files), c),
                                         trace := old(h.trace) + ControlEvents(h.faults, c))
  {
    var isOpen := h.Fopen(c.path);
    if isOpen {
      var written := h.Fwrite(c.path, c.data);
      var closed := h.Fclose(c.path);
      assert [] + c.data[..written] == c.data[..written];
    }
  }

  method WriteControls(h: Host, cs: seq<Control>)
    modifies h`files, h`trace
    ensures h.State() == old(h.State()).(files := ControlsFiles(h.faults, old(h.files), cs),
                                         trace := old(h.trace) + ControlsEvents(h.faults, cs))
  {
    ghost var w := h.State();
    for i := 0 to |cs|
      invariant h.files == ControlsFiles(h.faults, w.files, cs[..i])
      invariant h.trace == w.trace + ControlsEvents(h.faults, cs[..i])
      invariant h.dirs == w.dirs && h.flag == w.flag && h.pending == w.pending
    {
      WriteControl(h, cs[i]);
      ControlsSnoc(h.faults, w.files, cs[..i], cs[i]);
      assert cs[..i + 1] == cs[..i] + [cs[i]];
      assert h.trace == w.trace + (ControlsEvents(h.faults, cs[..i]) + ControlEvents(h.faults, cs[i]));
    }
    assert cs[..|cs|] == cs;
  }

  lemma {:induction false} ControlsSnoc(f: Faults, files: map<string, string>, cs: seq<Control>, c: Control)
    ensures ControlsFiles(f, files, cs + [c]) == ControlFiles(f, ControlsFiles(f, files, cs), c)
    ensures ControlsEvents(f, cs + [c]) == ControlsEvents(f, cs) + ControlEvents(f, c)
    decreases |cs|
  {
    if cs == [] {
      assert [c][1..] == [];
    } else {
      assert (cs + [c])[1..] == cs[1..] + [c];
      ControlsSnoc(f, ControlFiles(f, files, cs[0]), cs[1..], c);
    }
  }

  /** The common shape of the three setup_*_cgroup functions. */
  method SetupController(h: Host, dir: string, cs: seq<Control>)
    modifies h`dirs, h`files, h`trace
    ensures h.State() == ControllerSpec(h.faults, old(h.State()), dir, cs)
  {
    var made := h.Mkdir(dir);
    if !made {
      return;
    }
    WriteControls(h, cs);
  }

  method SetupMemoryCgroup(h: Host, p: Config.Params, pidRecord: string)
    modifies h`dirs, h`files, h`trace
    ensures h.State() == ControllerSpec(h.faults, old(h.State()), CGROUP_MEMORY_DIR, MemoryControls(p, pidRecord))
  {
    SetupController(h, CGROUP_MEMORY_DIR, MemoryControls(p, pidRecord));
  }

  method SetupPidCgroup(h: Host, p: Config.Params, pidRecord: string)
    modifies h`dirs, h`files, h`trace
    ensures h.State() == ControllerSpec(h.faults, old(h.State()), CGROUP_PID_DIR, PidControls(p, pidRecord))
  {
    SetupController(h, CGROUP_PID_DIR, PidControls(p, pidRecord));
  }

  method SetupCpuCgroup(h: Host, p: Config.Params, pidRecord: string)
    modifies h`dirs, h`files, h`trace
    ensures h.State() == ControllerSpec(h.faults, old(h.State()), CGROUP_CPU_DIR, CpuControls(p, pidRecord))
  {
    SetupController(h, CGROUP_CPU_DIR, CpuControls(p, pidRecord));
  }

  /** setup_network_cgroup has an empty body. */
  method SetupNetworkCgroup(h: Host, p: Config.Params, pidRecord: string)
    ensures h.State() == old(h.State())
  {
  }

  /** setup_cgroups: format the PID once with "%u", then the three controllers in turn. */
  method SetupCgroups(h: Host, p: Config.Params, pid: ChildPid)
    modifies h`dirs, h`files, h`trace
    ensures h.State() == SetupCgroupsSpec(h.faults, old(h.State()), p, pid)
  {
    var record := PidRecord(pid);
    SetupMemoryCgroup(h, p, record);
    SetupPidCgroup(h, p, record);
    SetupCpuCgroup(h, p, record);
    SetupNetworkCgroup(h, p, record);
  }

  method CleanUpCgroups(h: Host)
    modifies h`dirs, h`trace
    ensures h.State() == CleanUpSpec(h.faults, old(h.State()))
  {
    var removed := h.Rmdir(MEMORY_GROUP);
    removed := h.Rmdir(PID_GROUP);
    removed := h.Rmdir(CPU_GROUP);
  }
}
