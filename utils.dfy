/** The path, string and lookup helpers of the library (src/utils.cpp). */
module Utils {
  import opened Outcomes
  import opened StdString
  import opened OpenCl
  import opened FileSystem

  /** `path` with every backslash turned into a forward slash. */
  function Unixify(path: string): (r: string)
    ensures |r| == |path| && '\\' !in r
  {
    seq(|path|, i requires 0 <= i < |path| => if path[i] == '\\' then '/' else path[i])
  }

  lemma UnixifyIdempotent(path: string)
    ensures Unixify(Unixify(path)) == Unixify(path)
  {
  }

  lemma UnixifyPlain(path: string)
    requires '\\' !in path
    ensures Unixify(path) == path
  {
  }

  /** `unixifyPath`: repeatedly finds the next backslash from `index` and
      replaces it in place. */
  method UnixifyPath(path: string) returns (r: string)
    ensures |r| == |path| && '\\' !in r
    ensures forall i :: 0 <= i < |path| ==> r[i] == (if path[i] == '\\' then '/' else path[i])
    ensures r == Unixify(path)
  {
    r := path;
    var index := 0;
    while true
      invariant 0 <= index <= |r| == |path|
      invariant forall j :: 0 <= j < index ==> r[j] == (if path[j] == '\\' then '/' else path[j])
      invariant forall j :: index <= j < |path| ==> r[j] == path[j]
      decreases |path| - index
    {
      var k := Find(r, '\\', index);
      if k == -1 {
        break;
      }
      r := r[k := '/'];
      index := k + 1;
    }
  }

  /** `endsWith(s, end)`. */
  function EndsWith(s: string, end: string): (b: bool)
  {
    if |end| > |s| then false else s[|s| - |end|..] == end
  }

  lemma EndsWithMeaning(s: string, end: string)
    ensures EndsWith(s, end) <==> |end| <= |s| && forall i :: 0 <= i < |end| ==> s[|s| - |end| + i] == end[i]
    ensures EndsWith(s, end) <==> |end| <= |s| && s == s[..|s| - |end|] + end
  {
    if |end| <= |s| {
      assert (forall i :: 0 <= i < |end| ==> s[|s| - |end| + i] == end[i]) <==> s[|s| - |end|..] == end;
      assert s == s[..|s| - |end|] + s[|s| - |end|..];
    }
  }

  lemma EndsWithConcat(prefix: string, end: string)
    ensures EndsWith(prefix + end, end)
  {
    assert (prefix + end)[|prefix|..] == end;
  }

  /** `getFileName`: the index of the last '/' is taken on the path as
      given, the text itself from the unixified path. */
  function GetFileName(path: string): (name: string)
    ensures |name| <= |path|
    ensures name == Unixify(path)[|path| - |name|..]
    ensures |name| < |path| ==> path[|path| - |name| - 1] == '/'
    ensures forall j :: |path| - |name| <= j < |path| ==> path[j] != '/'
  {
    var upath := Unixify(path);
    var idx := FindLast(path, '/') + 1;
    upath[idx..]
  }

  /** Without backslashes the file name is the text after the last '/', or
      the whole path, and holds no '/'. */
  lemma GetFileNamePlain(path: string)
    requires '\\' !in path
    ensures '/' !in GetFileName(path)
    ensures path == path[..|path| - |GetFileName(path)|] + GetFileName(path)
    ensures '/' in path <==> |GetFileName(path)| < |path|
  {
    var name := GetFileName(path);
    UnixifyPlain(path);
    assert path == path[..|path| - |name|] + path[|path| - |name|..];
    if '/' in path {
      var j :| 0 <= j < |path| && path[j] == '/';
      assert j < |path| - |name|;
    }
  }

  /** Backslashes before the last '/' survive as '/' in the file name. */
  lemma GetFileNameMixedSeparators()
    ensures GetFileName("kernels\\k.cl") == "kernels/k.cl"
    ensures GetFileName("a\\b/k.cl") == "k.cl"
  {
    assert FindLast("kernels\\k.cl", '/') == -1;
    assert Unixify("kernels\\k.cl") == "kernels/k.cl";
    assert "a\\b/k.cl"[3] == '/';
    assert Unixify("a\\b/k.cl")[4..] == "k.cl";
  }

  /** `createTempKernelFile(source, entryPoint)`: an inlined kernel's source
      is written to `<entryPoint>_inline.cl` in the working directory, and
      that file then reads back as exactly the source. */
  function TempKernelFile(v: FsView, source: string, entryPoint: string): (res: (Outcome<string>, FsView))
    ensures var target := entryPoint + "_inline.cl";
      (res.0.Ok? <==> CanCreateFile(v, target)) &&
      (res.0.Ok? ==> res.0.value == target && target in res.1.sources && JoinLines(res.1.sources[target]) == source &&
                     res.1 == v.(sources := res.1.sources) && res.1.sources - {target} == v.sources - {target}) &&
      (res.0.Fail? ==> res == (Fail(Exit("Could not create tmp file for inlined kernel " + entryPoint)), v))
  {
    var target := entryPoint + "_inline.cl";
    if CanCreateFile(v, target) then
      JoinSplit(source);
      (Ok(target), v.(sources := v.sources[target := SplitLines(source)]))
    else
      (Fail(Exit("Could not create tmp file for inlined kernel " + entryPoint)), v)
  }

  method CreateTempKernelFile(fs: FileStore, source: string, entryPoint: string) returns (r: Outcome<string>)
    modifies fs`sources
    ensures (r, fs.View()) == TempKernelFile(old(fs.View()), source, entryPoint)
  {
    var targetPath := entryPoint + "_inline.cl";
    var ok := fs.WriteText(targetPath, source);
    if !ok {
      return Fail(Exit("Could not create tmp file for inlined kernel " + entryPoint));
    }
    return Ok(targetPath);
  }

  /** The names of the OpenCL 1.2 error codes 0 to -63, indexed by `-code`. */
  const ErrorNames: seq<string> :=
    ["CL_SUCCESS", "CL_DEVICE_NOT_FOUND", "CL_DEVICE_NOT_AVAILABLE", "CL_COMPILER_NOT_AVAILABLE",
     "CL_MEM_OBJECT_ALLOCATION_FAILURE", "CL_OUT_OF_RESOURCES", "CL_OUT_OF_HOST_MEMORY", "CL_PROFILING_INFO_NOT_AVAILABLE"] +
    ["CL_MEM_COPY_OVERLAP", "CL_IMAGE_FORMAT_MISMATCH", "CL_IMAGE_FORMAT_NOT_SUPPORTED", "CL_BUILD_PROGRAM_FAILURE",
     "CL_MAP_FAILURE", "CL_MISALIGNED_SUB_BUFFER_OFFSET", "CL_EXEC_STATUS_ERROR_FOR_EVENTS_IN_WAIT_LIST", "CL_COMPILE_PROGRAM_FAILURE"] +
    ["CL_LINKER_NOT_AVAILABLE", "CL_LINK_PROGRAM_FAILURE", "CL_DEVICE_PARTITION_FAILED", "CL_KERNEL_ARG_INFO_NOT_AVAILABLE",
     "-20", "-21", "-22", "-23"] +
    ["-24", "-25", "-26", "-27",
     "-28", "-29", "CL_INVALID_VALUE", "CL_INVALID_DEVICE_TYPE"] +
    ["CL_INVALID_PLATFORM", "CL_INVALID_DEVICE", "CL_INVALID_CONTEXT", "CL_INVALID_QUEUE_PROPERTIES",
     "CL_INVALID_COMMAND_QUEUE", "CL_INVALID_HOST_PTR", "CL_INVALID_MEM_OBJECT", "CL_INVALID_IMAGE_FORMAT_DESCRIPTOR"] +
    ["CL_INVALID_IMAGE_SIZE", "CL_INVALID_SAMPLER", "CL_INVALID_BINARY", "CL_INVALID_BUILD_OPTIONS",
     "CL_INVALID_PROGRAM", "CL_INVALID_PROGRAM_EXECUTABLE", "CL_INVALID_KERNEL_NAME", "CL_INVALID_KERNEL_DEFINITION"] +
    ["CL_INVALID_KERNEL", "CL_INVALID_ARG_INDEX", "CL_INVALID_ARG_VALUE", "CL_INVALID_ARG_SIZE",
     "CL_INVALID_KERNEL_ARGS", "CL_INVALID_WORK_DIMENSION", "CL_INVALID_WORK_GROUP_SIZE", "CL_INVALID_WORK_ITEM_SIZE"] +
    ["CL_INVALID_GLOBAL_OFFSET", "CL_INVALID_EVENT_WAIT_LIST", "CL_INVALID_EVENT", "CL_INVALID_OPERATION",
     "CL_INVALID_GL_OBJECT", "CL_INVALID_BUFFER_SIZE", "CL_INVALID_MIP_LEVEL", "CL_INVALID_GLOBAL_WORK_SIZE"]

  /** `getCLErrorString`. */
  function ClErrorString(code: int): (s: string)
  {
    var ind := -code;
    if 0 <= ind < |ErrorNames| then ErrorNames[ind] else "unknown"
  }

  /** The table covers exactly the codes 0 to -63; every other code is
      "unknown", and no code in the range is. */
  lemma ClErrorStringTable(code: int)
    ensures |ErrorNames| == 64
    ensures -63 <= code <= 0 ==> ClErrorString(code) == ErrorNames[-code]
    ensures ClErrorString(code) == "unknown" <==> !(-63 <= code <= 0)
  {
    assert forall i :: 0 <= i < |ErrorNames| ==> |ErrorNames[i]| != 7 || ErrorNames[i][0] != 'u';
    assert "unknown" !in ErrorNames;
  }

  lemma ClErrorStringExamples()
    ensures ClErrorString(0) == "CL_SUCCESS"
    ensures ClErrorString(-11) == "CL_BUILD_PROGRAM_FAILURE"
    ensures ClErrorString(-63) == "CL_INVALID_GLOBAL_WORK_SIZE"
  {
  }

  /** `check`: a failing status throws a runtime error carrying `msg`. */
  function Check(err: int32, msg: string): (r: Outcome<()>)
    ensures r == Ok(()) <==> err == CL_SUCCESS
    ensures r != Ok(()) ==> r == Fail(RuntimeError(msg))
  {
    if err != CL_SUCCESS then Fail(RuntimeError(msg)) else Ok(())
  }

  /** `platformIsNvidia`. */
  function PlatformIsNvidia(platform: Platform): (b: bool)
    ensures b <==> Occurs(platform.name, "NVIDIA")
  {
    Contains(platform.name, "NVIDIA")
  }

  /** `getPlatformByName`: the first platform whose name contains `name`,
      or the first platform when none does. The caller (`initialize`)
      guarantees a non-empty list. */
  method GetPlatformByName(platforms: seq<Platform>, name: string) returns (k: nat)
    requires |platforms| > 0
    ensures k < |platforms|
    ensures forall j :: 0 <= j < k ==> !Occurs(platforms[j].name, name)
    ensures Occurs(platforms[k].name, name) || (k == 0 && forall j :: 0 <= j < |platforms| ==> !Occurs(platforms[j].name, name))
  {
    k := 0;
    while k < |platforms|
      invariant 0 <= k <= |platforms|
      invariant forall j :: 0 <= j < k ==> !Occurs(platforms[j].name, name)
    {
      if Contains(platforms[k].name, name) {
        return;
      }
      k := k + 1;
    }
    k := 0;
  }

  /** `getDeviceByName`: the first device whose name contains `name`, or
      the first device when none does. The caller (`initialize`)
      guarantees a non-empty list. */
  method GetDeviceByName(devices: seq<Device>, name: string) returns (k: nat)
    requires |devices| > 0
    ensures k < |devices|
    ensures forall j :: 0 <= j < k ==> !Occurs(devices[j].name, name)
    ensures Occurs(devices[k].name, name) || (k == 0 && forall j :: 0 <= j < |devices| ==> !Occurs(devices[j].name, name))
  {
    k := 0;
    while k < |devices|
      invariant 0 <= k <= |devices|
      invariant forall j :: 0 <= j < k ==> !Occurs(devices[j].name, name)
    {
      if Contains(devices[k].name, name) {
        return;
      }
      k := k + 1;
    }
    k := 0;
  }
}
