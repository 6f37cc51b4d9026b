# CLT kernel cache: a verified model

CLT is a small C++ helper library for OpenCL. Its core is a kernel-build
cache.

- A kernel source file is read and its `#include` lines are expanded
  recursively. A shared include list lets each file be inlined at most once
  and breaks include cycles.
- The expanded text, the build options, the platform name and the device
  name are hashed.
- The hash names a binary file `<cacheDir>/<file>.<decimal hash>.bin`. When
  that file exists it is loaded; otherwise the source is compiled and the
  single resulting binary is written there.
- A `Kernel` object keeps the options of its last build. `build` skips
  compilation when a kernel exists and the options are unchanged. Otherwise
  it compiles, creates the kernel and rebuilds the map from argument names to
  argument indices that `setArg` and `hasArg` consult.

The model is in seven modules:

- `Outcomes`: the ways an operation ends. `Exit` is `waitExit()`, which
  terminates the process. `RuntimeError` is a thrown `std::runtime_error`.
  `OutOfRange` is `std::string::substr` throwing.
- `StdString`: the `std::string` operations the library relies on: `find`,
  `find_last_of`, `substr` with its length clamp, and `std::to_string`.
- `OpenCl`: the driver calls and host services as uninterpreted functions
  (`Driver`, `Host`), plus the 32-bit OR of status codes.
- `FileSystem`: text files as the lines a `getline` loop yields, cache files
  as bytes, directories and read-only directories, and `mkdir`.
- `Utils`: `src/utils.cpp`.
- `KernelReader`: `src/kernelreader.cpp` (include expansion, `createPath`, the
  cache).
- `KernelBuild`: `src/Kernel.cpp` and `src/Kernel.hpp` (the statics, the
  `Kernel` object, `build`).

Code that changes state step by step is written as methods:

- `unixifyPath`, the name searches, `readKernel`, `createPath`,
  `kernelFromFile`, the status loop, `build` and its argument loop.
- Most methods are proved equal to a specification function, and the
  properties the library promises are lemmas about those functions.
- `GetPlatformByName` and `GetDeviceByName` state their first-match and
  fallback result directly in their postconditions.

Behaviour of the code kept as written:

- The fast path compares only the build options, not the context, device
  or platform passed in (`FastPathIgnoresTarget`).
- The hash is printed with `std::to_string`, in decimal
  (`CacheFileNameLayout`).
- The cache key is a plain concatenation. Different option and platform
  strings can therefore produce the same key (`CacheKeyConcatenation`).
- Include lines naming neither a `.cl` nor a `.h` file are dropped from the
  output; they are not passed on to the compiler (`Classify`, `StepSkipped`).

- `getFileName` finds the last `/` on the path as given, before backslashes
  are converted (`GetFileNameMixedSeparators`).
- A path with no `/` is its own include directory (`DirOfWithoutSlash`).
- A cache hit still calls `program.build` (`LoadCached`).
- An include line with exactly 10 characters makes the `size_t` length wrap
  around, giving an empty name (`IncludeName`).
- `lastBuildOpts` and the context/device/platform fields are stored before
  compiling. A failed slow path that already created a kernel handle
  therefore makes the next build a silent fast path (`BuildThenBuildIsFast`).
- The cache is bypassed whenever `CPU_DEBUG` is set. The debug flags are
  added only for CPU devices (`BuildOptionsShape`, `DebugBypassesCache`).
- The check "Failed to create kernel program" after `kernelFromFile` always
  passes: `kernelFromFile` returns only with a zero status (`ObtainProgram`).

## Model

| member | source | states |
|---|---|---|
| StdString.Find | src/utils.cpp:63 | the first index at or after `from` holding the character and none before it, or -1 when there is none |
| StdString.FindLast | src/utils.cpp:91 | the last index holding the character with none after it, or -1 when the string has none |
| StdString.Contains | src/kernelreader.cpp:253 | `find(t) != npos` holds exactly when `t` occurs somewhere in `s` |
| StdString.Substr | src/kernelreader.cpp:259 | the characters from `pos`, `count` of them or up to the end when fewer remain |
| StdString.Decimal | src/kernelreader.cpp:135 | `std::to_string` yields at least one digit and no leading zero |
| StdString.DecimalRoundTrip | src/kernelreader.cpp:135 | reading the printed digits back gives the number |
| StdString.DecimalInjective | src/kernelreader.cpp:135 | two numbers print the same exactly when they are equal |
| OpenCl.OrBits | src/kernelreader.cpp:65-67 | the bitwise OR of two `width`-bit values stays within the width and is zero iff both are |
| OpenCl.BitOr | src/kernelreader.cpp:66 | `err \|= i` on `cl_int` values gives zero iff both operands are zero |
| FileSystem.ParentOf | src/kernelreader.cpp:81-93 | the directory holding a path: the text before its last '/', or "." when it has none |
| FileSystem.CanCreateFile | src/kernelreader.cpp:188-190 | a file can be opened for writing iff the name is not a directory and its parent is a writable directory (`WriteBinary`, `WriteText`) |
| FileSystem.MkdirResultOf | src/kernelreader.cpp:81-93 | `mkdir` reports EEXIST exactly when the name is taken; it creates only when the parent is a directory; `mkdir("")` reports ENOENT |
| FileSystem.SplitLines | src/kernelreader.cpp:249-251 | the `getline` loop yields at least one line, even for an empty file |
| FileSystem.SplitLinesHaveNoNewline | src/kernelreader.cpp:251 | no line `getline` yields contains a newline |
| FileSystem.JoinSplit | src/kernelreader.cpp:24-27 | joining the lines of a text with newlines gives back the text, so the raw contents read by `rdbuf` are the lines rejoined |
| FileSystem.SplitJoin | src/kernelreader.cpp:249-251 | splitting the join of newline-free lines gives back the lines |
| FileSystem.FileStore.Mkdir | src/kernelreader.cpp:86 | `mkdir(p, 0755)` returns its errno class and adds `p` to the directories exactly when it is made |
| FileSystem.FileStore.WriteBinary | src/kernelreader.cpp:188-202 | opening the binary output file succeeds exactly when the file can be created, and then the file holds the bytes; otherwise nothing changes |
| FileSystem.FileStore.WriteText | src/utils.cpp:77-84 | opening a text file for writing succeeds exactly when it can be created, and then the file reads back as the lines of the text; otherwise nothing changes |
| Utils.Unixify | src/utils.cpp:58-71 | the normalised path has the same length and contains no backslash |
| Utils.UnixifyIdempotent | src/utils.cpp:58-71 | normalising twice equals normalising once |
| Utils.UnixifyPlain | src/utils.cpp:58-71 | a path without backslashes is left unchanged |
| Utils.UnixifyPath | src/utils.cpp:58-71 | the in-place replacement loop returns the same length with every backslash turned into '/' and every other character unchanged |
| Utils.EndsWith | src/utils.cpp:49-56 | `endsWith`: false when the suffix is longer than the string, else a comparison of the last characters; its meaning is stated by `EndsWithMeaning` |
| Utils.EndsWithMeaning | src/utils.cpp:49-56 | `endsWith(s, e)` holds iff `e` is no longer than `s` and the last `\|e\|` characters of `s` are `e`, i.e. `s` is some prefix followed by `e` |
| Utils.EndsWithConcat | src/utils.cpp:49-56 | every string ends with itself appended to anything |
| Utils.GetFileName | src/utils.cpp:88-93 | the result is the normalised text after the last '/' of the raw path, which holds no further '/' |
| Utils.GetFileNamePlain | src/utils.cpp:88-93 | for a path without backslashes the name holds no '/', the path is a prefix plus the name, and the name is shorter than the path iff the path has a '/' |
| Utils.GetFileNameMixedSeparators | src/utils.cpp:90-91 | backslashes before the last '/' are kept as '/' in the name, because the index is found on the raw path |
| Utils.TempKernelFile | src/utils.cpp:74-86 | creating `<entryPoint>_inline.cl` succeeds iff that file can be created; then it reads back as exactly the source and nothing else changes; otherwise the process exits with the diagnostic and nothing changes |
| Utils.CreateTempKernelFile | src/utils.cpp:74-86 | the step-by-step write has the outcome and effect of `TempKernelFile` |
| Utils.ClErrorString | src/utils.cpp:314-346 | `clErrorString`: the table entry at `-code` when in range, else "unknown"; stated by `ClErrorStringTable` and `ClErrorStringExamples` |
| Utils.ClErrorStringTable | src/utils.cpp:314-346 | the table has 64 entries; codes 0 to -63 give `errors[-code]` and exactly the other codes give "unknown" |
| Utils.ClErrorStringExamples | src/utils.cpp:319-341 | 0 is "CL_SUCCESS", -11 is "CL_BUILD_PROGRAM_FAILURE" and -63 is "CL_INVALID_GLOBAL_WORK_SIZE" |
| Utils.Check | src/utils.cpp:22-29 | `check` passes iff the status is `CL_SUCCESS` and otherwise throws a runtime error carrying exactly the message |
| Utils.PlatformIsNvidia | src/utils.cpp:31-35 | true iff the platform name contains "NVIDIA" |
| Utils.GetPlatformByName | src/utils.cpp:125-135 | on a non-empty list: the first platform whose name contains the query, or element 0 when none does |
| Utils.GetDeviceByName | src/utils.cpp:137-147 | on a non-empty list: the first device whose name contains the query, or element 0 when none does |
| KernelReader.IncludeName | src/kernelreader.cpp:259 | the name is `line[10 .. \|line\|-1]`; a 10-character line gives "" because the `size_t` length wraps |
| KernelReader.Classify | src/kernelreader.cpp:253-264 | a line without "#include" is verbatim and only then; an include line shorter than 10 characters throws; an include is expanded iff its name ends in ".cl" or ".h", and otherwise the line is dropped |
| KernelReader.DirOf | src/kernelreader.cpp:243-244 | the text before the last '/' of the normalised path, or the whole path when it has none (`DirOfJoin`, `DirOfWithoutSlash`) |
| KernelReader.UnvisitedShrinks | src/kernelreader.cpp:238-241 | pushing an unvisited existing file onto the include list lowers the number of unvisited files, so expansion terminates |
| KernelReader.UnvisitedMonotone | src/kernelreader.cpp:238-241 | a longer include list leaves no more files unvisited |
| KernelReader.Expand | src/kernelreader.cpp:227-268 | the include list only grows, never holds a path twice and holds only existing files; an unvisited path is pushed first; a missing normalised path exits with "Cannot open file <path>" (iff); every failure is a missing file or a short include line |
| KernelReader.ExpandLines | src/kernelreader.cpp:249-265 | the line loop keeps the include list growing and duplicate-free, adds only existing files, and fails only through a missing file or a short include line |
| KernelReader.StepVerbatim | src/kernelreader.cpp:253-256 | a line without "#include" is appended followed by a newline |
| KernelReader.StepTooShort | src/kernelreader.cpp:259 | an include line shorter than 10 characters ends the expansion with `std::out_of_range` |
| KernelReader.StepSkipped | src/kernelreader.cpp:259-260 | an include of a name not ending in ".cl" or ".h" contributes nothing |
| KernelReader.StepInclude | src/kernelreader.cpp:259-263 | an include of a ".cl"/".h" name contributes the expansion of `dir + "/" + name` on the shared list, followed by a newline, and a failure there propagates |
| KernelReader.ExpandRoot | src/kernelreader.cpp:219-223 | the expansion's text from an empty include list; its results are stated by `RepeatedIncludeInlinedOnce`, `IncludeCycleTerminates` and their examples |
| KernelReader.StepIncludeOk | src/kernelreader.cpp:259-263 | after an included file expands, the loop continues with its text and a newline appended, on the list it left |
| KernelReader.StepIncludeFails | src/kernelreader.cpp:259-263 | a failure inside an included file is the failure of the whole loop |
| KernelReader.IncludeList.constructor | src/kernelreader.cpp:221 | the top-level call starts from an empty include list |
| KernelReader.ReadKernelWith | src/kernelreader.cpp:227-268 | `readKernel(path, incl)` returns the expansion's text and leaves exactly its include list in `incl`, or fails as it does |
| KernelReader.ReadLine | src/kernelreader.cpp:251-264 | one pass of the line loop on line `i`: on success the include list only grows and the rest of the loop is unchanged with the output extended; a failure ends the loop as the expansion does |
| KernelReader.ReadKernel | src/kernelreader.cpp:219-223 | `readKernel(path)` is the expansion from an empty include list |
| KernelReader.ExpandVisited | src/kernelreader.cpp:237-239 | a path already on the include list yields "" and leaves the list unchanged |
| KernelReader.TerminatedIsText | src/kernelreader.cpp:255 | every line followed by a newline is the file's text plus one final newline |
| KernelReader.PlainLinesFrom | src/kernelreader.cpp:249-256 | from any line on, an include-free file appends each remaining line followed by a newline and touches no include list |
| KernelReader.PlainFileExpansion | src/kernelreader.cpp:238-256 | an include-free file not yet visited expands to each line followed by a newline, i.e. its text plus a newline, and is the one path pushed |
| KernelReader.DirOfJoin | src/kernelreader.cpp:243-261 | the directory of `dir + "/" + name` is `dir` when the name has no '/' |
| KernelReader.QuotedInclude | src/kernelreader.cpp:253-260 | `#include "name"` yields exactly `name` and is expanded iff the name ends in ".cl" or ".h" |
| KernelReader.RevisitContributesNewline | src/kernelreader.cpp:237-262 | including a file already on the list contributes only the newline after it, which is what ends include cycles |
| KernelReader.IncludeOfHeader | src/kernelreader.cpp:253-260 | `#include "name"` of a ".h" or ".cl" name is an include of exactly that name |
| KernelReader.ExpandPlainInclude | src/kernelreader.cpp:237-261 | the include of an unvisited include-free file expands to its lines, each followed by a newline, and pushes it |
| KernelReader.RepeatedIncludeInlinedOnce | src/kernelreader.cpp:237-263 | a file including the same include-free file twice gets its text once, then an empty line for the second include |
| KernelReader.ExpandBackReference | src/kernelreader.cpp:237-263 | a first line including a file already on the list yields only a newline, then the remaining lines |
| KernelReader.ExpandIncluder | src/kernelreader.cpp:237-263 | expanding a file that includes the root back ends, adding the file to the list and giving a newline then its other lines |
| KernelReader.IncludeCycleTerminates | src/kernelreader.cpp:219-263 | two files including each other expand to a result: each is inlined once and the back-reference adds only a newline |
| KernelReader.RepeatedIncludeExample | src/kernelreader.cpp:219-263 | `d/a.cl` including `b.h` twice, with `d/b.h` holding "y", expands to "y\n\n\n" |
| KernelReader.IncludeCycleExample | src/kernelreader.cpp:219-263 | `d/a.cl` = [include `b.h`, "A"] and `d/b.h` = [include `a.cl`, "B"] expand to "\nB\n\nA\n" |
| KernelReader.DirOfWithoutSlash | src/kernelreader.cpp:243-244 | a path without '/' is used as its own directory |
| KernelReader.CreatePathSpec | src/kernelreader.cpp:79-108 | only directories change, and only prefixes of the normalised path are created; the result is true iff the path then exists; an existing path gives true with no change |
| KernelReader.CreatePathAsWritten | src/kernelreader.cpp:79-108 | `createPath` as written, under a recursion depth bound; stated by `CreatePathEmptyDiverges` and `CreatePathAsWrittenAgrees` |
| KernelReader.CreatePathEmptyDiverges | src/kernelreader.cpp:90-96 | for "" the code as written recurses on "" again and returns under no depth bound |
| KernelReader.CreatePathEmptyFails | src/kernelreader.cpp:90-99 | the corrected definition returns false on "" and changes nothing |
| KernelReader.CreatePathAsWrittenAgrees | src/kernelreader.cpp:79-108 | wherever the code as written returns, it returns what the corrected definition does |
| KernelReader.CreatePathIdempotent | src/kernelreader.cpp:79-108 | creating a path twice gives the same answer and state as creating it once |
| KernelReader.CreatePathIgnoresLongerFile | src/kernelreader.cpp:79-108 | creating a path neither depends on nor alters a file whose name is longer than the path |
| KernelReader.CreatePath | src/kernelreader.cpp:79-108 | the recursive `mkdir` method has the result and effect of the corrected `createPath` |
| KernelReader.CreateDirectory | src/kernelreader.cpp:111-115 | `createDirectory` has the effect of `createPath`, a failure being only printed |
| KernelReader.Verify | src/kernelreader.cpp:70-77 | passes iff the status is 0, otherwise exits with "ERROR: " and the message |
| KernelReader.KernelFromSource | src/kernelreader.cpp:15-29 | the program is built from the file's raw text iff the file exists, otherwise the process exits with "Could not open kernel file '<name>'" |
| KernelReader.CombinedStatus | src/kernelreader.cpp:161 | the OR of the incoming status and all per-device statuses is zero iff all of them are zero |
| KernelReader.OrStatuses | src/kernelreader.cpp:65-67 | the `err \|= i` loop computes the combined status |
| KernelReader.KernelFromBinary | src/kernelreader.cpp:38-68 | a missing file exits with "Could not open kernel binary '<name>'"; otherwise the program is the file's bytes and the status is the OR of the load statuses, zero iff all are |
| KernelReader.CacheKey | src/kernelreader.cpp:124-129 | the hashed text: the expanded source, then the build options, the platform name and the device name (`CacheKeyConcatenation`) |
| KernelReader.CacheKeyConcatenation | src/kernelreader.cpp:124-129 | the key is a plain concatenation, so moving text between the options and the platform name leaves it unchanged |
| KernelReader.CacheFileName | src/kernelreader.cpp:135 | the cache file name starts with the cache directory and a '/', and ends in ".bin" |
| KernelReader.CacheFileNameLayout | src/kernelreader.cpp:135 | between the directory and ".bin" stand the file name, a dot and the decimal digits of the hash, which read back as the hash; a file name without '/' puts the file directly in the cache directory |
| KernelReader.CacheFileNameParts | src/kernelreader.cpp:135 | the pieces of the concatenated name sit at their offsets, and its last '/' is the one after the directory when the file name has none |
| KernelReader.CacheFileNameInjective | src/kernelreader.cpp:135 | for one directory and file name, two hashes give the same cache file iff they are equal |
| KernelReader.BinaryPathFor | src/kernelreader.cpp:134-135 | the cache file named by the hash of the cache key, in the cache directory (`CacheFileName`, `CacheFileNameLayout`, `CacheFileNameInjective`) |
| KernelReader.LoadCached | src/kernelreader.cpp:141-167 | a hit succeeds iff the combined load status is zero and the loaded program builds, and the program is the stored bytes |
| KernelReader.CompileAndStore | src/kernelreader.cpp:168-214 | the miss branch changes only binaries, and at most the cache file among them; on success the program is compiled from the expanded source and the cache file exists (the full outcome is stated by `CacheMiss`) |
| KernelReader.KernelFromFileSpec | src/kernelreader.cpp:119-217 | the cache never changes kernel sources or permissions and only adds directories |
| KernelReader.CacheHit | src/kernelreader.cpp:131-167 | on a hit only the cache directory is created: no binary is written, and the stored bytes are what is loaded |
| KernelReader.CacheMiss | src/kernelreader.cpp:168-214 | on a miss the expanded source is compiled; it succeeds iff the build passes, exactly one binary comes back and the cache file can be opened; then exactly that file is added, holding the binary; on failure nothing but the directory changes |
| KernelReader.ExpansionFailureChangesNothing | src/kernelreader.cpp:121-124 | a missing or malformed source fails before the directory is created or anything is written |
| KernelReader.CacheRoundTrip | src/kernelreader.cpp:119-217 | after a successful miss the same request hits, loads exactly the binary just stored and changes nothing |
| KernelReader.KernelFromFile | src/kernelreader.cpp:119-217 | the step-by-step read, hash, probe, load or compile-and-write has the outcome and effect of the cache specification |
| KernelBuild.KernelConfig.constructor | src/Kernel.cpp:9-11 | the statics start as no global options, cache directory "cache/kernel_binaries" and debugging off |
| KernelBuild.KernelConfig.SetBuildOptions | src/Kernel.hpp:41 | overwrites only the global build options |
| KernelBuild.KernelConfig.SetCacheDir | src/Kernel.hpp:44 | overwrites only the cache directory |
| KernelBuild.KernelConfig.SetCpuDebug | src/Kernel.hpp:47 | overwrites only the debug flag |
| KernelBuild.Initial | src/Kernel.hpp:61-65 | a new kernel stores its path and entry point, with no handle, no arguments and empty last options |
| KernelBuild.BuildOptionsFor | src/Kernel.cpp:39-42 | the build options; their shape is stated by `BuildOptionsShape` |
| KernelBuild.BuildOptionsShape | src/Kernel.cpp:39-42 | the options are the global options, the kernel's own and " -cl-kernel-arg-info", followed by ` -g -s "<absolute path>"` exactly when debugging on a CPU |
| KernelBuild.ConfigHasChanged | src/Kernel.cpp:103-110 | `configHasChanged`: the recomputed options differ from the stored ones (`SlowPathCommitsFirst`, `BuildThenBuildIsFast`) |
| KernelBuild.CName | src/Kernel.cpp:90 | the key stored is a prefix of the name with no NUL and at most 127 characters, and it stops only at the 127th character, at the end of the name or at a NUL |
| KernelBuild.FillArgMap | src/Kernel.cpp:85-92 | the argument loop either completes or stops with "Getting CL_KERNEL_ARG_NAME failed for <file>" |
| KernelBuild.FillArgMapEntries | src/Kernel.cpp:85-92 | the loop keeps every key it started with and adds only entries mapping an argument's truncated name to its index |
| KernelBuild.FillArgMapCovers | src/Kernel.cpp:85-92 | a completed loop holds the truncated name of every argument |
| KernelBuild.FillArgMapLastWins | src/Kernel.cpp:85-92 | in a completed loop a name shared by several arguments maps to the last of them |
| KernelBuild.ArgMapFromEmpty | src/Kernel.cpp:77-92 | after clearing and a completed loop every value is below the argument count and maps back to its own name; every argument's name is a key; with distinct names each maps to its own index |
| KernelBuild.ObtainProgram | src/Kernel.cpp:49-69 | with debugging on the file system is untouched; kernel sources never change |
| KernelBuild.InlineStage | src/Kernel.cpp:24-26 | an inlined kernel is written to its temporary file, whose path is the new source path; stated by `DebugInlineCompilesSource` |
| KernelBuild.Commit | src/Kernel.cpp:28-43 | the path, target, device kind and options stored before compiling (`SlowPathCommitsFirst`) |
| KernelBuild.KernelStage | src/Kernel.cpp:71-95 | only the handle, the map and the `setArgs` count change; the handle is what creation returned even on failure; on success the map is the completed loop from an empty map and `setArgs` is called once |
| KernelBuild.CompileStage | src/Kernel.cpp:44-95 | only the handle, the map and the `setArgs` count change; the file system is what obtaining the program leaves; a failure to obtain it is the build's failure |
| KernelBuild.SlowPath | src/Kernel.cpp:24-95 | the inline step, the commit and the compile stage in order (`SlowPathCommitsFirst`, `SlowPathCallsSetArgs`, `SlowPathArgMap`) |
| KernelBuild.FastPath | src/Kernel.cpp:17 | a kernel exists and the options are unchanged (`FastPathIsNoOp`, `BuildThenBuildIsFast`) |
| KernelBuild.BuildSpec | src/Kernel.cpp:14-96 | `build`: the fast path or the slow path; stated by the lemmas below and implemented by `Kernel.Build` |
| KernelBuild.FastPathIsNoOp | src/Kernel.cpp:16-22 | with a kernel and unchanged options, `build` succeeds, touches no file and no field, and calls `setArgs` exactly when asked |
| KernelBuild.FastPathIgnoresTarget | src/Kernel.cpp:17 | the fast path does the same whatever context, device and platform are passed |
| KernelBuild.SlowPathCommitsFirst | src/Kernel.cpp:25-43 | once the inline step passes, the new path, context, device, platform, device kind and options are stored whatever happens later, and agree with `configHasChanged` |
| KernelBuild.SlowPathCallsSetArgs | src/Kernel.cpp:95 | a successful slow path calls `setArgs` once, whatever the flag |
| KernelBuild.BuildThenBuildIsFast | src/Kernel.cpp:16-43 | with unchanged settings, a build after a slow path that left a handle is a fast path on any target, even after a failure |
| KernelBuild.CreatesKernelOnSuccess | src/Kernel.cpp:72-73 | the driver's `cl::Kernel` constructor yields a kernel handle whenever it reports `CL_SUCCESS` |
| KernelBuild.SuccessfulBuildIsBuilt | src/Kernel.cpp:14-96 | for such a driver, a successful `build` leaves a kernel handle |
| KernelBuild.SuccessfulBuildThenBuildIsFast | src/Kernel.cpp:14-96 | for such a driver, after a successful `build` a second `build` with unchanged settings is the fast path on any target: it succeeds, changes no file and only counts the `setArgs` call |
| KernelBuild.DebugBypassesCache | src/Kernel.cpp:49-61 | with `CPU_DEBUG` no cache file is read or written and no directory is created |
| KernelBuild.DebugInlineCompilesSource | src/Kernel.cpp:25-51 | with `CPU_DEBUG` an inlined kernel is compiled from exactly its source text |
| KernelBuild.CachedBuildUsesCacheDir | src/Kernel.cpp:39-66 | without `CPU_DEBUG` the program comes from the cache with the static cache directory and the options just computed, and its failure is the build's |
| KernelBuild.SlowPathArgMap | src/Kernel.cpp:77-92 | a successful slow path leaves the map of a completed argument loop from an empty map, every value below the argument count |
| KernelBuild.Kernel.constructor | src/Kernel.hpp:13 | the object starts in the initial state |
| KernelBuild.Kernel.IsBuilt | src/Kernel.hpp:16 | `operator bool` is true iff a kernel handle exists |
| KernelBuild.Kernel.HasArg | src/Kernel.hpp:37 | true iff the name is a key of the argument map |
| KernelBuild.Kernel.SetArg | src/Kernel.hpp:24-35 | an unknown name throws "Unknown kernel argument <name>" and binds nothing; a known name is bound at its index and the driver's status returned; no field changes |
| KernelBuild.Kernel.ConfigChanged | src/Kernel.cpp:103-110 | the recomputed options differ from the stored ones |
| KernelBuild.Kernel.FillArgs | src/Kernel.cpp:85-92 | the `for` loop over argument indices leaves the map and outcome of the argument loop |
| KernelBuild.Kernel.CreateKernel | src/Kernel.cpp:71-95 | kernel creation, clearing the map, the argument queries and `setArgs` change the fields as the kernel stage says |
| KernelBuild.Kernel.Compile | src/Kernel.cpp:44-95 | obtaining the program and creating the kernel change the fields and files as the compile stage says |
| KernelBuild.Kernel.InlineSource | src/Kernel.cpp:24-26 | an inlined kernel's source path becomes its temporary file; a failed write changes no field |
| KernelBuild.Kernel.CommitTarget | src/Kernel.cpp:30-43 | stores the target, the device kind and the computed options |
| KernelBuild.Kernel.Build | src/Kernel.cpp:14-96 | `build` has the outcome, the new fields and the file system of the build specification |
| KernelBuild.Kernel.Rebuild | src/Kernel.cpp:98-101 | `rebuild` is `build` on the stored context, device and platform |

## Left out

- `printDevices`, `initialize` and the GL-interop context setup in `src/utils.cpp`: device enumeration, printing and platform calls only.
- `getAbsolutePath` is the uninterpreted `Host.absolutePath`: it wraps `realpath`/`_fullpath`.
- `computeHash` is the uninterpreted `Host.hash`, one deterministic 64-bit function. The 32-bit `ENVIRONMENT32` choice of XXH32 is not modelled. `fileHash` is unused by the core and is not part of this model.
- The `CLT_CALL` exception mode is not modelled: every driver call returns its status directly.
- Console output is not modelled: the build logs printed to stdout, `m_buildLog`, and the messages printed before `waitExit` or a throw.
- `setUserPointer`/`userPtr` is not modelled: the pointer is never used.
- `example/main.cpp` and `include/` (header selection) are not part of this model.
- Cross-process races on cache files are not modelled: the library has no concurrency.
- OpenCL objects are values: a program is identified by the text or bytes it was created from, and a device by its name and type.
- KernelReader.KernelFromFile: a write that fails after the output file opened ("Failed to write kernel binary") is not modelled. The file is taken to hold the whole first binary, i.e. `sizes[0]` is its length.
- KernelReader.KernelFromSource: the status of constructing a program from source text is not modelled (here and in `kernelFromSourceExpanded`). The code discards it on every path it is used on.
- KernelReader.Expand: the linear `std::find` over the include list is set membership on the list, the same answer.
- FileSystem.FsView: text files and binary files are kept in two maps, so one name cannot be read both ways.
- Utils.ClErrorString: the codes are unbounded integers, so the undefined negation of `INT_MIN` has no counterpart.
- KernelBuild.Initial: the uninitialised `deviceIsCPU` of a fresh object is taken as false. It is read only by `configHasChanged`, and there only after `m_kernel` exists, which implies a slow path has set it.
- KernelBuild.FillArgMap: the argument count is `nat` rather than 32-bit `cl_uint`, and the loop index cannot overflow.
- KernelBuild.Kernel.SetArg: a value of any C++ type is a byte string given to the driver.
- Paths are compared as plain strings, with no normalisation: `a/./b` and `a/b`, `a//b`, a trailing '/' and a name reached through a symlink are different files. A binary cached under `cache` is therefore a miss under `./cache`.
- Strings are sequences of characters, not bytes: `KernelBuild.CName` cuts at 127 characters where `snprintf` cuts at 127 bytes, and `Host.hash` is applied to the characters of the key rather than to its UTF-8 bytes. The two agree for ASCII names and keys.
- KernelBuild.Kernel.Build: the default argument `setArgs = true` of `build` has no counterpart; every call passes the flag.
- KernelBuild.Hooks: `setArgs()` is observed only as a call counter. Its effect on the kernel's bound arguments is outside the model.

## Findings

| source | as written | input that shows it | evidently intended | confidence | as-written member | corrected member |
|---|---|---|---|---|---|---|
| src/kernelreader.cpp:95-96 | on ENOENT, `createPath` recurses on `path.substr(0, path.find_last_of('/'))`, which for a path without '/' is the path itself | `setCacheDir("")` then a non-debug `build`: `mkdir("")` fails with ENOENT and `createPath("")` calls itself forever | a path with no parent to create fails with false | not executed | KernelReader.CreatePathAsWritten, KernelReader.CreatePathEmptyDiverges | KernelReader.CreatePathSpec, KernelReader.CreatePathEmptyFails, KernelReader.CreatePath |
