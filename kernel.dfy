/** The `Kernel` object and its build state machine (src/Kernel.cpp,
    src/Kernel.hpp): a fast path that only re-applies arguments, and a slow
    path that compiles (through the cache or directly from source), creates
    the kernel and rebuilds the argument-name map. */
module KernelBuild {
  import opened Outcomes
  import opened StdString
  import opened OpenCl
  import opened FileSystem
  import opened Utils
  import opened KernelReader

  // ---------------------------------------------------------------------
  // The statics
  // ---------------------------------------------------------------------

  /** `globalBuildOpts`, `cacheDir` and `CPU_DEBUG`. */
  datatype Settings = Settings(globalBuildOpts: string, cacheDir: string, cpuDebug: bool)

  const DefaultSettings := Settings("", "cache/kernel_binaries", false)

  /** The static members shared by every kernel. */
  class KernelConfig {
    var globalBuildOpts: string
    var cacheDir: string
    var cpuDebug: bool

    function Current(): Settings
      reads this
    {
      Settings(globalBuildOpts, cacheDir, cpuDebug)
    }

    /** The static initialisers. */
    constructor ()
      ensures Current() == DefaultSettings
    {
      globalBuildOpts, cacheDir, cpuDebug := "", "cache/kernel_binaries", false;
    }

    /** `setBuildOptions(s)`. */
    method SetBuildOptions(s: string)
      modifies this`globalBuildOpts
      ensures Current() == old(Current()).(globalBuildOpts := s)
    {
      globalBuildOpts := s;
    }

    /** `setCacheDir(s)`. */
    method SetCacheDir(s: string)
      modifies this`cacheDir
      ensures Current() == old(Current()).(cacheDir := s)
    {
      cacheDir := s;
    }

    /** `setCpuDebug(v)`. */
    method SetCpuDebug(v: bool)
      modifies this`cpuDebug
      ensures Current() == old(Current()).(cpuDebug := v)
    {
      cpuDebug := v;
    }
  }

  // ---------------------------------------------------------------------
  // The kernel's state and its hooks
  // ---------------------------------------------------------------------

  /** What a concrete kernel supplies: `getAdditionalBuildOptions()`, and
      `isInlined()`/`getSource()` as the inline source when there is one.
      The remaining hook, `setArgs()`, is observed through a call counter. */
  datatype Hooks = Hooks(additionalBuildOptions: string, inlineSource: Option<string>)

  /** The fields of a `Kernel`: `m_sourcePath`, `m_entryPoint`, `m_kernel`
      (absent while null), `lastBuildOpts`, `argMap`, the stored
      `context/device/platform` (absent until the first build), `deviceIsCPU`,
      and the number of `setArgs()` calls so far. */
  datatype KernelState = KernelState(
    sourcePath: string,
    entryPoint: string,
    handle: Option<KernelHandle>,
    lastBuildOpts: string,
    argMap: map<string, nat>,
    context: Option<Context>,
    device: Option<Device>,
    platform: Option<Platform>,
    deviceIsCPU: bool,
    setArgsCalls: nat)

  /** The state the constructor leaves. */
  function Initial(srcPath: string, entryPoint: string): (k: KernelState)
    ensures k.sourcePath == srcPath && k.entryPoint == entryPoint
    ensures k.handle == None && k.argMap == map[] && k.lastBuildOpts == ""
    ensures k.setArgsCalls == 0
  {
    KernelState(srcPath, entryPoint, None, "", map[], None, None, None, false, 0)
  }

  const ArgInfoOption := " -cl-kernel-arg-info"

  /** The options string `build` and `configHasChanged` both compute. */
  function BuildOptionsFor(settings: Settings, hooks: Hooks, host: Host, sourcePath: string, deviceIsCPU: bool): string
  {
    settings.globalBuildOpts + hooks.additionalBuildOptions + ArgInfoOption +
    (if settings.cpuDebug && deviceIsCPU then " -g -s \"" + host.absolutePath(sourcePath) + "\"" else "")
  }

  /** The options always start with the global options, the kernel's own
      options and the argument-info flag; the debug flags follow exactly
      when debugging is on and the device is a CPU. */
  lemma BuildOptionsShape(settings: Settings, hooks: Hooks, host: Host, sourcePath: string, deviceIsCPU: bool)
    ensures var base := settings.globalBuildOpts + hooks.additionalBuildOptions + ArgInfoOption;
      var opts := BuildOptionsFor(settings, hooks, host, sourcePath, deviceIsCPU);
      |base| <= |opts| && opts[..|base|] == base &&
      (|opts| > |base| <==> settings.cpuDebug && deviceIsCPU) &&
      (settings.cpuDebug && deviceIsCPU ==> opts[|base|..] == " -g -s \"" + host.absolutePath(sourcePath) + "\"")
  {
    var base := settings.globalBuildOpts + hooks.additionalBuildOptions + ArgInfoOption;
    var opts := BuildOptionsFor(settings, hooks, host, sourcePath, deviceIsCPU);
    if settings.cpuDebug && deviceIsCPU {
      var tail := " -g -s \"" + host.absolutePath(sourcePath) + "\"";
      assert opts == base + tail;
      assert opts[..|base|] == base && opts[|base|..] == tail;
    } else {
      assert opts == base + "";
    }
  }

  /** `configHasChanged()`: with the stored source path and device kind. */
  function ConfigHasChanged(k: KernelState, settings: Settings, hooks: Hooks, host: Host): bool
  {
    BuildOptionsFor(settings, hooks, host, k.sourcePath, k.deviceIsCPU) != k.lastBuildOpts
  }

  // ---------------------------------------------------------------------
  // The argument-name map
  // ---------------------------------------------------------------------

  /** `snprintf(buffer, 128, "%s", name.c_str())`: the name up to its first
      NUL, cut to 127 characters. */
  function CName(name: string): (r: string)
    ensures |r| <= 127 && r <= name && '\0' !in r
    ensures |r| == 127 || r == name || name[|r|] == '\0'
  {
    var z := Find(name, '\0', 0);
    var upto := if z == -1 then name else name[..z];
    if |upto| > 127 then upto[..127] else upto
  }

  /** The loop `for (i = i0; i < numArgs; i++)` of `build`, on the map built so
      far: the outcome and the map it leaves, a failed query leaving the
      entries made before it. */
  function FillArgMap(driver: Driver, handle: Option<KernelHandle>, n: nat, filename: string, i: nat, m: map<string, nat>)
    : (res: (Outcome<()>, map<string, nat>))
    ensures res.0 == Ok(()) || res.0 == Fail(RuntimeError("Getting CL_KERNEL_ARG_NAME failed for " + filename))
    decreases n - i
  {
    if i >= n then (Ok(()), m)
    else
      var a := driver.argName(handle, i);
      match Check(a.status, "Getting CL_KERNEL_ARG_NAME failed for " + filename)
      case Fail(f) => (Fail(f), m)
      case Ok(_) => FillArgMap(driver, handle, n, filename, i + 1, m[CName(a.name) := i])
  }

  /** What the loop adds: only entries that map an argument's truncated name
      to its index, keeping every key it started with. */
  lemma {:induction false} FillArgMapEntries(driver: Driver, handle: Option<KernelHandle>, n: nat, filename: string,
                                             i: nat, m: map<string, nat>)
    ensures var res := FillArgMap(driver, handle, n, filename, i, m);
      (forall key :: key in res.1 ==>
        (key in m && res.1[key] == m[key]) ||
        (i <= res.1[key] < n && CName(driver.argName(handle, res.1[key]).name) == key)) &&
      (forall key :: key in m ==> key in res.1)
    decreases n - i
  {
    if i < n {
      var a := driver.argName(handle, i);
      if a.status == CL_SUCCESS {
        FillArgMapEntries(driver, handle, n, filename, i + 1, m[CName(a.name) := i]);
      }
    }
  }

  /** A finished loop holds the truncated name of every argument. */
  lemma {:induction false} FillArgMapCovers(driver: Driver, handle: Option<KernelHandle>, n: nat, filename: string,
                                            i: nat, m: map<string, nat>)
    requires FillArgMap(driver, handle, n, filename, i, m).0.Ok?
    ensures forall j :: i <= j < n ==> CName(driver.argName(handle, j).name) in FillArgMap(driver, handle, n, filename, i, m).1
    decreases n - i
  {
    if i < n {
      var a := driver.argName(handle, i);
      var m' := m[CName(a.name) := i];
      assert FillArgMap(driver, handle, n, filename, i, m) == FillArgMap(driver, handle, n, filename, i + 1, m');
      var res := FillArgMap(driver, handle, n, filename, i + 1, m').1;
      FillArgMapEntries(driver, handle, n, filename, i + 1, m');
      FillArgMapCovers(driver, handle, n, filename, i + 1, m');
      assert CName(a.name) in m';
      assert CName(a.name) in res;
      forall j | i <= j < n
        ensures CName(driver.argName(handle, j).name) in res
      {
        if j > i {
          assert i + 1 <= j;
        }
      }
    }
  }

  /** In a finished loop a name shared by several arguments maps to the
      last of them. */
  lemma {:induction false} FillArgMapLastWins(driver: Driver, handle: Option<KernelHandle>, n: nat, filename: string,
                                              i: nat, m: map<string, nat>)
    requires FillArgMap(driver, handle, n, filename, i, m).0.Ok?
    ensures var res := FillArgMap(driver, handle, n, filename, i, m).1;
      forall key, j :: key in res && i <= j < n && CName(driver.argName(handle, j).name) == key ==>
        i <= res[key] < n && j <= res[key]
    decreases n - i
  {
    if i < n {
      var a := driver.argName(handle, i);
      var m' := m[CName(a.name) := i];
      assert FillArgMap(driver, handle, n, filename, i, m) == FillArgMap(driver, handle, n, filename, i + 1, m');
      var res := FillArgMap(driver, handle, n, filename, i + 1, m').1;
      FillArgMapEntries(driver, handle, n, filename, i + 1, m');
      FillArgMapLastWins(driver, handle, n, filename, i + 1, m');
      forall key, j | key in res && i <= j < n && CName(driver.argName(handle, j).name) == key
        ensures i <= res[key] < n && j <= res[key]
      {
        if j == i {
          assert key in m' && m'[key] == i;
          assert res[key] == i || i + 1 <= res[key] < n;
        } else {
          assert i + 1 <= j;
        }
      }
    }
  }

  /** After a complete loop from an empty map every value is an argument
      index, every key is the truncated name of the argument it maps to, and
      with pairwise distinct truncated names each name maps to its own
      index. */
  lemma ArgMapFromEmpty(driver: Driver, handle: Option<KernelHandle>, n: nat, filename: string)
    requires FillArgMap(driver, handle, n, filename, 0, map[]).0.Ok?
    ensures var m := FillArgMap(driver, handle, n, filename, 0, map[]).1;
      (forall key :: key in m ==> m[key] < n && CName(driver.argName(handle, m[key]).name) == key) &&
      (forall j :: 0 <= j < n ==> CName(driver.argName(handle, j).name) in m) &&
      ((forall i, j :: 0 <= i < j < n ==> CName(driver.argName(handle, i).name) != CName(driver.argName(handle, j).name)) ==>
        forall j :: 0 <= j < n ==> m[CName(driver.argName(handle, j).name)] == j)
  {
    var m := FillArgMap(driver, handle, n, filename, 0, map[]).1;
    FillArgMapEntries(driver, handle, n, filename, 0, map[]);
    FillArgMapCovers(driver, handle, n, filename, 0, map[]);
    FillArgMapLastWins(driver, handle, n, filename, 0, map[]);
    if forall i, j :: 0 <= i < j < n ==> CName(driver.argName(handle, i).name) != CName(driver.argName(handle, j).name) {
      forall j | 0 <= j < n
        ensures m[CName(driver.argName(handle, j).name)] == j
      {
        var key := CName(driver.argName(handle, j).name);
        var v := m[key];
        assert CName(driver.argName(handle, v).name) == key;
        assert j <= v;
        assert j == v;
      }
    }
  }

  // ---------------------------------------------------------------------
  // `build`
  // ---------------------------------------------------------------------

  /** The result of `build`: its outcome, the kernel's state and the file
      system afterwards. A thrown error leaves the state as far as it got. */
  datatype Transition = Transition(result: Outcome<()>, kernel: KernelState, fs: FsView)

  /** The program `build` obtains. With `CPU_DEBUG` the raw source is
      compiled directly and the cache is not consulted; otherwise it comes
      from `kernelFromFile` with the static cache directory, and the build
      log must be readable. (`check(err, "Failed to create kernel program")`
      always passes there: `kernelFromFile` returns only with a zero
      status.) */
  function ObtainProgram(settings: Settings, host: Host, driver: Driver, fs: FsView, path: string, opts: string,
                         platform: Platform, device: Device): (res: (Outcome<Program>, FsView))
    ensures settings.cpuDebug ==> res.1 == fs
    ensures res.1.sources == fs.sources
  {
    if settings.cpuDebug then
      match KernelFromSource(fs, path)
      case Fail(f) => (Fail(f), fs)
      case Ok(program) =>
        match Check(driver.build(program, device, opts), "Kernel compilation failed")
        case Fail(f) => (Fail(f), fs)
        case Ok(_) => (Ok(program), fs)
    else
      var (r, fs1) := KernelFromFileSpec(fs, host, driver, path, opts, settings.cacheDir, platform, device);
      match r
      case Fail(f) => (Fail(f), fs1)
      case Ok(program) =>
        match Check(driver.buildLogStatus(program, device), "Failed to get program build log")
        case Fail(f) => (Fail(f), fs1)
        case Ok(_) => (Ok(program), fs1)
  }

  /** The source path after the inline step, and the file system. */
  function InlineStage(k: KernelState, hooks: Hooks, fs: FsView): (Outcome<string>, FsView)
  {
    match hooks.inlineSource
    case None => (Ok(k.sourcePath), fs)
    case Some(src) => TempKernelFile(fs, src, k.entryPoint)
  }

  /** The fields the slow path stores before compiling. */
  function Commit(k: KernelState, settings: Settings, hooks: Hooks, host: Host, path: string,
                  context: Context, device: Device, platform: Platform): KernelState
  {
    k.(sourcePath := path, context := Some(context), device := Some(device), platform := Some(platform),
       deviceIsCPU := device.kind == Cpu,
       lastBuildOpts := BuildOptionsFor(settings, hooks, host, path, device.kind == Cpu))
  }

  /** Everything after the program is obtained: create the kernel, clear
      the map, query the argument count, fill the map, call `setArgs`. Only
      the handle, the map and the call counter change. */
  function KernelStage(k: KernelState, driver: Driver, program: Program, fs: FsView): (t: Transition)
    ensures t.fs == fs
    ensures t.kernel == k.(handle := t.kernel.handle, argMap := t.kernel.argMap, setArgsCalls := t.kernel.setArgsCalls)
    ensures t.kernel.setArgsCalls == k.setArgsCalls + (if t.result.Ok? then 1 else 0)
    ensures t.kernel.handle == driver.createKernel(program, k.entryPoint).handle
    ensures t.result.Ok? ==>
      var fill := FillArgMap(driver, t.kernel.handle, driver.numArgs(t.kernel.handle).count, GetFileName(k.sourcePath), 0, map[]);
      fill.0.Ok? && t.kernel.argMap == fill.1
  {
    var filename := GetFileName(k.sourcePath);
    var created := driver.createKernel(program, k.entryPoint);
    var k2 := k.(handle := created.handle);
    match Check(created.status, "Failed to create compute kernel!")
    case Fail(f) => Transition(Fail(f), k2, fs)
    case Ok(_) =>
      var k3 := k2.(argMap := map[]);
      var count := driver.numArgs(created.handle);
      match Check(count.status, "Getting KERNEL_NUM_ARGS failed for " + filename)
      case Fail(f) => Transition(Fail(f), k3, fs)
      case Ok(_) =>
        var fill := FillArgMap(driver, created.handle, count.count, filename, 0, map[]);
        match fill.0
        case Fail(f) => Transition(Fail(f), k3.(argMap := fill.1), fs)
        case Ok(_) => Transition(Ok(()), k3.(argMap := fill.1, setArgsCalls := k.setArgsCalls + 1), fs)
  }

  /** Obtain the program for the committed state, then the kernel stage. */
  function CompileStage(k: KernelState, settings: Settings, host: Host, driver: Driver, fs: FsView,
                        platform: Platform, device: Device): (t: Transition)
    ensures t.kernel == k.(handle := t.kernel.handle, argMap := t.kernel.argMap, setArgsCalls := t.kernel.setArgsCalls)
    ensures t.kernel.setArgsCalls == k.setArgsCalls + (if t.result.Ok? then 1 else 0)
    ensures t.fs == ObtainProgram(settings, host, driver, fs, k.sourcePath, k.lastBuildOpts, platform, device).1
    ensures ObtainProgram(settings, host, driver, fs, k.sourcePath, k.lastBuildOpts, platform, device).0.Fail? ==>
      t.result == Fail(ObtainProgram(settings, host, driver, fs, k.sourcePath, k.lastBuildOpts, platform, device).0.fault)
  {
    match ObtainProgram(settings, host, driver, fs, k.sourcePath, k.lastBuildOpts, platform, device)
    case (Fail(f), fs1) => Transition(Fail(f), k, fs1)
    case (Ok(program), fs1) => KernelStage(k, driver, program, fs1)
  }

  /** The slow path of `build`. */
  function SlowPath(k: KernelState, settings: Settings, hooks: Hooks, host: Host, driver: Driver, fs: FsView,
                    context: Context, device: Device, platform: Platform): Transition
  {
    match InlineStage(k, hooks, fs)
    case (Fail(f), fs0) => Transition(Fail(f), k, fs0)
    case (Ok(path), fs0) =>
      CompileStage(Commit(k, settings, hooks, host, path, context, device, platform), settings, host, driver, fs0, platform, device)
  }

  /** The fast path of `build`. */
  predicate FastPath(k: KernelState, settings: Settings, hooks: Hooks, host: Host)
  {
    k.handle.Some? && !ConfigHasChanged(k, settings, hooks, host)
  }

  /** `build(context, device, platform, setArgs)`. */
  function BuildSpec(k: KernelState, settings: Settings, hooks: Hooks, host: Host, driver: Driver, fs: FsView,
                     context: Context, device: Device, platform: Platform, setArgs: bool): Transition
  {
    if FastPath(k, settings, hooks, host) then
      Transition(Ok(()), if setArgs then k.(setArgsCalls := k.setArgsCalls + 1) else k, fs)
    else
      SlowPath(k, settings, hooks, host, driver, fs, context, device, platform)
  }

  /** The fast path compiles nothing, touches no file and no field, and
      calls `setArgs` exactly when asked to. */
  lemma FastPathIsNoOp(k: KernelState, settings: Settings, hooks: Hooks, host: Host, driver: Driver, fs: FsView,
                       context: Context, device: Device, platform: Platform, setArgs: bool)
    requires FastPath(k, settings, hooks, host)
    ensures var t := BuildSpec(k, settings, hooks, host, driver, fs, context, device, platform, setArgs);
      t.result == Ok(()) && t.fs == fs &&
      t.kernel.(setArgsCalls := k.setArgsCalls) == k &&
      t.kernel.setArgsCalls == k.setArgsCalls + (if setArgs then 1 else 0)
  {
  }

  /** The fast-path test does not look at its arguments: a build on another
      context, device or platform with unchanged options does the same
      thing. */
  lemma FastPathIgnoresTarget(k: KernelState, settings: Settings, hooks: Hooks, host: Host, driver: Driver, fs: FsView,
                              c1: Context, d1: Device, p1: Platform, c2: Context, d2: Device, p2: Platform, setArgs: bool)
    requires FastPath(k, settings, hooks, host)
    ensures BuildSpec(k, settings, hooks, host, driver, fs, c1, d1, p1, setArgs)
         == BuildSpec(k, settings, hooks, host, driver, fs, c2, d2, p2, setArgs)
  {
  }

  /** Once the inline step is past, the slow path stores the new target and
      options before compiling, so they are in place whatever happens next;
      the stored options then agree with the configuration. */
  lemma SlowPathCommitsFirst(k: KernelState, settings: Settings, hooks: Hooks, host: Host, driver: Driver, fs: FsView,
                             context: Context, device: Device, platform: Platform, setArgs: bool)
    requires !FastPath(k, settings, hooks, host)
    requires InlineStage(k, hooks, fs).0.Ok?
    ensures var t := BuildSpec(k, settings, hooks, host, driver, fs, context, device, platform, setArgs);
      var path := InlineStage(k, hooks, fs).0.value;
      t.kernel.sourcePath == path &&
      t.kernel.context == Some(context) && t.kernel.device == Some(device) && t.kernel.platform == Some(platform) &&
      t.kernel.deviceIsCPU == (device.kind == Cpu) &&
      t.kernel.lastBuildOpts == BuildOptionsFor(settings, hooks, host, path, device.kind == Cpu) &&
      !ConfigHasChanged(t.kernel, settings, hooks, host)
  {
  }

  /** A slow path that succeeds always ends with one `setArgs` call,
      whatever the flag says. */
  lemma SlowPathCallsSetArgs(k: KernelState, settings: Settings, hooks: Hooks, host: Host, driver: Driver, fs: FsView,
                             context: Context, device: Device, platform: Platform, setArgs: bool)
    requires !FastPath(k, settings, hooks, host)
    ensures var t := BuildSpec(k, settings, hooks, host, driver, fs, context, device, platform, setArgs);
      t.result.Ok? ==> t.kernel.setArgsCalls == k.setArgsCalls + 1
  {
  }

  /** With unchanged settings, any build after a slow path that left a
      kernel handle is a fast path, on any target: after a success this is
      the cheap second build; after a failure it means a retry reports
      success without compiling. */
  lemma BuildThenBuildIsFast(k: KernelState, settings: Settings, hooks: Hooks, host: Host, driver: Driver, fs: FsView,
                             context: Context, device: Device, platform: Platform, setArgs: bool,
                             context2: Context, device2: Device, platform2: Platform, setArgs2: bool)
    requires !FastPath(k, settings, hooks, host)
    requires InlineStage(k, hooks, fs).0.Ok?
    requires BuildSpec(k, settings, hooks, host, driver, fs, context, device, platform, setArgs).kernel.handle.Some?
    ensures var t := BuildSpec(k, settings, hooks, host, driver, fs, context, device, platform, setArgs);
      var t2 := BuildSpec(t.kernel, settings, hooks, host, driver, t.fs, context2, device2, platform2, setArgs2);
      t2.result == Ok(()) && t2.fs == t.fs &&
      t2.kernel == t.kernel.(setArgsCalls := t.kernel.setArgsCalls + (if setArgs2 then 1 else 0))
  {
    SlowPathCommitsFirst(k, settings, hooks, host, driver, fs, context, device, platform, setArgs);
  }

  /** A driver whose kernel creation reports success only together with a
      kernel object, as `cl::Kernel` does. */
  ghost predicate CreatesKernelOnSuccess(driver: Driver)
  {
    forall program, name :: driver.createKernel(program, name).status == CL_SUCCESS ==>
      driver.createKernel(program, name).handle.Some?
  }

  /** With such a driver a successful `build` leaves a kernel, so `operator
      bool` is true afterwards. */
  lemma SuccessfulBuildIsBuilt(k: KernelState, settings: Settings, hooks: Hooks, host: Host, driver: Driver, fs: FsView,
                               context: Context, device: Device, platform: Platform, setArgs: bool)
    requires CreatesKernelOnSuccess(driver)
    requires BuildSpec(k, settings, hooks, host, driver, fs, context, device, platform, setArgs).result.Ok?
    ensures BuildSpec(k, settings, hooks, host, driver, fs, context, device, platform, setArgs).kernel.handle.Some?
  {
    if !FastPath(k, settings, hooks, host) {
      var (path, fs0) := InlineStage(k, hooks, fs);
      var k1 := Commit(k, settings, hooks, host, path.value, context, device, platform);
      var (p, fs1) := ObtainProgram(settings, host, driver, fs0, k1.sourcePath, k1.lastBuildOpts, platform, device);
      var t := KernelStage(k1, driver, p.value, fs1);
      assert t.result.Ok?;
      var created := driver.createKernel(p.value, k1.entryPoint);
      assert created.status == CL_SUCCESS;
    }
  }

  /** After a successful build, any build with unchanged settings is a fast
      path, on any target: it compiles nothing and changes only the
      `setArgs` count. */
  lemma SuccessfulBuildThenBuildIsFast(k: KernelState, settings: Settings, hooks: Hooks, host: Host, driver: Driver,
                                       fs: FsView, context: Context, device: Device, platform: Platform, setArgs: bool,
                                       context2: Context, device2: Device, platform2: Platform, setArgs2: bool)
    requires CreatesKernelOnSuccess(driver)
    requires BuildSpec(k, settings, hooks, host, driver, fs, context, device, platform, setArgs).result.Ok?
    ensures var t := BuildSpec(k, settings, hooks, host, driver, fs, context, device, platform, setArgs);
      var t2 := BuildSpec(t.kernel, settings, hooks, host, driver, t.fs, context2, device2, platform2, setArgs2);
      FastPath(t.kernel, settings, hooks, host) &&
      t2.result == Ok(()) && t2.fs == t.fs &&
      t2.kernel == t.kernel.(setArgsCalls := t.kernel.setArgsCalls + (if setArgs2 then 1 else 0))
  {
    SuccessfulBuildIsBuilt(k, settings, hooks, host, driver, fs, context, device, platform, setArgs);
    if !FastPath(k, settings, hooks, host) {
      BuildThenBuildIsFast(k, settings, hooks, host, driver, fs, context, device, platform, setArgs,
                           context2, device2, platform2, setArgs2);
    }
  }

  /** With `CPU_DEBUG` the cache is bypassed: no cache file is read or
      written and no directory created; only an inlined kernel's temporary
      file may be written. */
  lemma DebugBypassesCache(k: KernelState, settings: Settings, hooks: Hooks, host: Host, driver: Driver, fs: FsView,
                           context: Context, device: Device, platform: Platform, setArgs: bool)
    requires settings.cpuDebug
    ensures var t := BuildSpec(k, settings, hooks, host, driver, fs, context, device, platform, setArgs);
      t.fs.binaries == fs.binaries && t.fs.dirs == fs.dirs && t.fs.readOnly == fs.readOnly
  {
  }

  /** With `CPU_DEBUG` an inlined kernel is compiled from exactly the text
      of `getSource()`, read back from its temporary file. */
  lemma DebugInlineCompilesSource(k: KernelState, settings: Settings, hooks: Hooks, fs: FsView)
    requires settings.cpuDebug && hooks.inlineSource.Some?
    requires InlineStage(k, hooks, fs).0.Ok?
    ensures var (path, fs0) := (InlineStage(k, hooks, fs).0.value, InlineStage(k, hooks, fs).1);
      KernelFromSource(fs0, path) == Ok(FromSource(hooks.inlineSource.value))
  {
  }

  /** Without `CPU_DEBUG` the program comes from the cache store with the
      static cache directory, under the options just computed. */
  lemma CachedBuildUsesCacheDir(k: KernelState, settings: Settings, hooks: Hooks, host: Host, driver: Driver, fs: FsView,
                                context: Context, device: Device, platform: Platform, setArgs: bool)
    requires !settings.cpuDebug && !FastPath(k, settings, hooks, host)
    requires InlineStage(k, hooks, fs).0.Ok?
    ensures var (path, fs0) := (InlineStage(k, hooks, fs).0.value, InlineStage(k, hooks, fs).1);
      var opts := BuildOptionsFor(settings, hooks, host, path, device.kind == Cpu);
      var fromCache := KernelFromFileSpec(fs0, host, driver, path, opts, settings.cacheDir, platform, device);
      var t := BuildSpec(k, settings, hooks, host, driver, fs, context, device, platform, setArgs);
      t.fs == fromCache.1 && (fromCache.0.Fail? ==> t.result == Fail(fromCache.0.fault))
  {
  }

  /** A successful slow path leaves the map of a complete argument loop. */
  lemma SlowPathArgMap(k: KernelState, settings: Settings, hooks: Hooks, host: Host, driver: Driver, fs: FsView,
                       context: Context, device: Device, platform: Platform, setArgs: bool)
    requires !FastPath(k, settings, hooks, host)
    ensures var t := BuildSpec(k, settings, hooks, host, driver, fs, context, device, platform, setArgs);
      var h := t.kernel.handle;
      var n := driver.numArgs(h).count;
      t.result.Ok? ==>
        t.kernel.argMap == FillArgMap(driver, h, n, GetFileName(t.kernel.sourcePath), 0, map[]).1 &&
        FillArgMap(driver, h, n, GetFileName(t.kernel.sourcePath), 0, map[]).0.Ok? &&
        forall key :: key in t.kernel.argMap ==> t.kernel.argMap[key] < n
  {
    var t := BuildSpec(k, settings, hooks, host, driver, fs, context, device, platform, setArgs);
    if t.result.Ok? {
      var h := t.kernel.handle;
      ArgMapFromEmpty(driver, h, driver.numArgs(h).count, GetFileName(t.kernel.sourcePath));
    }
  }

  // ---------------------------------------------------------------------
  // The object
  // ---------------------------------------------------------------------

  class Kernel {
    var sourcePath: string
    var entryPoint: string
    var handle: Option<KernelHandle>
    var lastBuildOpts: string
    var argMap: map<string, nat>
    var context: Option<Context>
    var device: Option<Device>
    var platform: Option<Platform>
    var deviceIsCPU: bool
    var setArgsCalls: nat

    function State(): KernelState
      reads this
    {
      KernelState(sourcePath, entryPoint, handle, lastBuildOpts, argMap, context, device, platform, deviceIsCPU, setArgsCalls)
    }

    /** `Kernel(srcPath, entryPoint)`. */
    constructor (srcPath: string, entry: string)
      ensures State() == Initial(srcPath, entry)
    {
      sourcePath, entryPoint, handle, lastBuildOpts, argMap := srcPath, entry, None, "", map[];
      context, device, platform, deviceIsCPU, setArgsCalls := None, None, None, false, 0;
    }

    /** `operator bool`. */
    function IsBuilt(): (b: bool)
      reads this
      ensures b <==> handle.Some?
    {
      handle.Some?
    }

    /** `hasArg(name)`. */
    function HasArg(name: string): (b: bool)
      reads this
      ensures b <==> name in argMap
    {
      name in argMap
    }

    /** `setArg(name, value)`: an unknown name throws and nothing is bound;
      a known one is bound at its index and the driver's status returned. */
    method SetArg(driver: Driver, name: string, value: seq<byte>) returns (r: Outcome<int32>)
      ensures name !in argMap ==> r == Fail(RuntimeError("Unknown kernel argument " + name))
      ensures name in argMap ==> r == Ok(driver.setArg(handle, argMap[name], value))
    {
      if name !in argMap {
        return Fail(RuntimeError("Unknown kernel argument " + name));
      }
      return Ok(driver.setArg(handle, argMap[name], value));
    }

    /** `configHasChanged()`. */
    method ConfigChanged(config: KernelConfig, hooks: Hooks, host: Host) returns (changed: bool)
      ensures changed == ConfigHasChanged(State(), config.Current(), hooks, host)
    {
      var buildOpts := config.globalBuildOpts + hooks.additionalBuildOptions;
      buildOpts := buildOpts + ArgInfoOption;
      if config.cpuDebug && deviceIsCPU {
        buildOpts := buildOpts + " -g -s \"" + host.absolutePath(sourcePath) + "\"";
      }
      changed := buildOpts != lastBuildOpts;
    }

    /** The argument loop of `build`. */
    method FillArgs(driver: Driver, n: nat, filename: string) returns (r: Outcome<()>)
      modifies this`argMap
      ensures (r, argMap) == FillArgMap(driver, handle, n, filename, 0, old(argMap))
    {
      ghost var m0 := argMap;
      var i := 0;
      while i < n
        invariant i <= n
        invariant FillArgMap(driver, handle, n, filename, i, argMap) == FillArgMap(driver, handle, n, filename, 0, m0)
      {
        var arg := driver.argName(handle, i);
        var ok := Check(arg.status, "Getting CL_KERNEL_ARG_NAME failed for " + filename);
        if ok.Fail? {
          return ok;
        }
        argMap := argMap[CName(arg.name) := i];
        i := i + 1;
      }
      return Ok(());
    }

    /** The tail of `build` once the program exists: create the kernel,
        rebuild the argument map, call `setArgs`. */
    method CreateKernel(driver: Driver, program: Program, ghost fsView: FsView) returns (r: Outcome<()>)
      modifies this`handle, this`argMap, this`setArgsCalls
      ensures var t := KernelStage(old(State()), driver, program, fsView);
        r == t.result && State() == t.kernel
    {
      var filename := GetFileName(sourcePath);
      var created := driver.createKernel(program, entryPoint);
      handle := created.handle;
      var ok := Check(created.status, "Failed to create compute kernel!");
      if ok.Fail? {
        return ok;
      }

      argMap := map[];
      var count := driver.numArgs(handle);
      ok := Check(count.status, "Getting KERNEL_NUM_ARGS failed for " + filename);
      if ok.Fail? {
        return ok;
      }
      ok := FillArgs(driver, count.count, filename);
      if ok.Fail? {
        return ok;
      }

      // Set default arguments
      setArgsCalls := setArgsCalls + 1;
      return Ok(());
    }

    /** `build` from the point where the options are stored: obtain the
        program, then create the kernel. */
    method Compile(config: KernelConfig, host: Host, driver: Driver, fs: FileStore, dev: Device, plat: Platform)
      returns (r: Outcome<()>)
      modifies this`handle, this`argMap, this`setArgsCalls, fs`dirs, fs`binaries
      ensures var t := CompileStage(old(State()), config.Current(), host, driver, old(fs.View()), plat, dev);
        r == t.result && State() == t.kernel && fs.View() == t.fs
    {
      var program: Program;
      if config.cpuDebug {
        var fromSource := KernelFromSource(fs.View(), sourcePath);
        if fromSource.Fail? {
          return Fail(fromSource.fault);
        }
        program := fromSource.value;
        var err := driver.build(program, dev, lastBuildOpts);
        var ok := Check(err, "Kernel compilation failed");
        if ok.Fail? {
          return ok;
        }
      } else {
        var fromFile := KernelFromFile(fs, host, driver, sourcePath, lastBuildOpts, config.cacheDir, plat, dev);
        if fromFile.Fail? {
          return Fail(fromFile.fault);
        }
        program := fromFile.value;
        var ok := Check(driver.buildLogStatus(program, dev), "Failed to get program build log");
        if ok.Fail? {
          return ok;
        }
      }
      r := CreateKernel(driver, program, fs.View());
    }

    /** `if (isInlined()) m_sourcePath = createTempKernelFile(getSource(), m_entryPoint);` */
    method InlineSource(hooks: Hooks, fs: FileStore) returns (r: Outcome<()>)
      modifies this`sourcePath, fs`sources
      ensures var (path, fs0) := InlineStage(old(State()), hooks, old(fs.View()));
        fs.View() == fs0 &&
        (path.Fail? ==> r == Fail(path.fault) && State() == old(State())) &&
        (path.Ok? ==> r == Ok(()) && State() == old(State()).(sourcePath := path.value))
    {
      if hooks.inlineSource.Some? {
        var tmp := CreateTempKernelFile(fs, hooks.inlineSource.value, entryPoint);
        if tmp.Fail? {
          return Fail(tmp.fault);
        }
        sourcePath := tmp.value;
      }
      return Ok(());
    }

    /** Store the target, the device kind and the options. */
    method CommitTarget(config: KernelConfig, hooks: Hooks, host: Host, ctx: Context, dev: Device, plat: Platform)
      modifies this`context, this`device, this`platform, this`deviceIsCPU, this`lastBuildOpts
      ensures State() == Commit(old(State()), config.Current(), hooks, host, sourcePath, ctx, dev, plat)
    {
      context, device, platform := Some(ctx), Some(dev), Some(plat);
      deviceIsCPU := dev.kind == Cpu;

      // Define build options based on global + specialized options
      var buildOpts := config.globalBuildOpts + hooks.additionalBuildOptions;
      buildOpts := buildOpts + ArgInfoOption;
      if config.cpuDebug && deviceIsCPU {
        buildOpts := buildOpts + (" -g -s \"" + host.absolutePath(sourcePath) + "\"");
      } else {
        assert buildOpts + "" == buildOpts;
      }
      lastBuildOpts := buildOpts;
    }

    /** `build(context, device, platform, setArgs)`. */
    method Build(config: KernelConfig, hooks: Hooks, host: Host, driver: Driver, fs: FileStore,
                 ctx: Context, dev: Device, plat: Platform, setArgs: bool) returns (r: Outcome<()>)
      modifies this, fs`sources, fs`dirs, fs`binaries
      ensures var t := BuildSpec(old(State()), config.Current(), hooks, host, driver, old(fs.View()), ctx, dev, plat, setArgs);
        r == t.result && State() == t.kernel && fs.View() == t.fs
    {
      // No need to recompile, just update arguments
      var changed := ConfigChanged(config, hooks, host);
      if handle.Some? && !changed {
        if setArgs {
          setArgsCalls := setArgsCalls + 1;
        }
        return Ok(());
      }

      r := InlineSource(hooks, fs);
      if r.Fail? {
        return;
      }
      CommitTarget(config, hooks, host, ctx, dev, plat);
      r := Compile(config, host, driver, fs, dev, plat);
    }

    /** `rebuild(setArgs)`: `build` on the stored context, device and
        platform. */
    method Rebuild(config: KernelConfig, hooks: Hooks, host: Host, driver: Driver, fs: FileStore, setArgs: bool)
      returns (r: Outcome<()>)
      requires context.Some? && device.Some? && platform.Some?
      modifies this, fs`sources, fs`dirs, fs`binaries
      ensures var t := BuildSpec(old(State()), config.Current(), hooks, host, driver, old(fs.View()),
                                 old(context.value), old(device.value), old(platform.value), setArgs);
        r == t.result && State() == t.kernel && fs.View() == t.fs
    {
      r := Build(config, hooks, host, driver, fs, context.value, device.value, platform.value, setArgs);
    }
  }
}
