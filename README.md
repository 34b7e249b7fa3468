# plaidml: symbol resolution of the CPU JIT and the OpenCL build pipeline

This project models two pieces of sequential bookkeeping in the plaidml tile
back ends and proves properties about them.

* **The CPU runtime's symbol resolver** (`Runtime::findSymbol`). When
  JIT-compiled tile code names an external symbol, the runtime looks it up in
  a table. The table is a function-static map, so one table serves every
  runtime of the process. It starts with the runtime's own support
  functions. On a miss, the runtime asks the dynamic linker. If that search
  fails and the name starts with `_` and is longer than one character, it
  retries once without the underscore. A hit is memoized under the name as
  requested. A total miss throws a message that names the symbol.
  `findSymbolInLogicalDylib` always answers with the null symbol.
  (module `CpuRuntime`)
* **The OpenCL compiler's unit assembly** (`Compiler::Build`). For a
  non-empty kernel list, the compilation unit holds these parts, in order:
  * the fp16 pragma, the fp64 pragma and the Intel-subgroup macros, each only
    when the device reports that extension;
  * the fixed definitions of the emulated `custom` type;
  * the source of every kernel that is the first non-zero kernel of its
    function, each followed by a blank line.

  Every kernel gets one build record carrying its name, its metadata and its
  source. A zero kernel records `// Builtin zero kernel` and a repeated
  function records `// Duplicate`. When the cache directory exists, a file
  already cached under the kernel's name replaces the rendering. Otherwise
  the rendering is written to that file. An empty kernel list gives a ready
  library at once. (modules `KernelUnit` and `OpenCLCompiler`)
* **The build completion protocol** (`Build::Start`,
  `Build::OnBuildComplete`, `Build::OnError`).
  * A started build is parked in a map of pending callbacks under a fresh
    handle.
  * The completion handler takes the build out of the map before it settles
    the build's promise. A second call with the same handle therefore does
    nothing.
  * When the driver refuses the build request, the handler runs at once.
  * A promise setter demands a promise that is still unset, so no path can
    settle a promise twice.
  * A build whose request the driver refuses is settled within `Start`. A
    build the driver accepts stays unset until its completion handler is
    called. Once the handler has been called at least once, the promise is
    settled as the driver's answers say.
  * On success, the build info is attached as metadata.
  * On failure, the status is stored, and the log is stored when both log
    queries succeed. The promise then fails.

  (module `BuildProtocol`)
* **`WithLineNumbers`**. It reprints a program's source with every line that
  `std::getline` reads prefixed by its number, right-aligned in a field of
  five, and `": "`. (module `LineNumbers`)

The following are oracles, given as parameters or as fields fixed at
construction:

* the dynamic linker: a map from exported names to non-null addresses, plus a
  log of the names it was asked for;
* the OpenCL driver: the unit texts it refuses, the error code of each build
  request and its answers to the build-info queries;
* the kernel renderer (`OptimizeKernel` and `Emit`): a function of the fp16
  flag, the fp64 flag and the descriptor;
* the file system: its directories and a map from path to contents.

Two details of the code are easy to misread, and the model follows them:

* A duplicate kernel adds nothing to the unit. Its `// Duplicate` marker goes
  only into its build record, not into the unit as a comment
  (`tile/hal/opencl/compiler.cc:303-305`).
* The build info is attached as metadata only when the build succeeds.
  `OnError` always throws, so the `AddMetadata` call after it is skipped on
  the failure path (`tile/hal/opencl/compiler.cc:105-112`, `147`).

## Model

| member | source | states |
|---|---|---|
| CpuRuntime.DynamicSearch | tile/hal/cpu/runtime.cc:71-77 | The linker finds an address exactly when the name is exported, or when the stripped name is exported and the name starts with `_` and is longer than one character. The name as given wins over the stripped name. |
| CpuRuntime.Searches | tile/hal/cpu/runtime.cc:66-77 | A table hit asks the linker nothing. Otherwise the linker is asked for the name first, and at most two searches are made. It is asked a second time, for the stripped name, exactly when the first search missed and the retry condition holds. A name found on the first search, underscore or not, is searched once. |
| CpuRuntime.Resolve | tile/hal/cpu/runtime.cc:59-86 | A table entry is returned as is. Otherwise the lookup succeeds exactly when the linker finds the symbol, with that address. A failure carries the message naming the symbol. |
| CpuRuntime.FailureMessage | tile/hal/cpu/runtime.cc:83 | The message of a total miss: the fixed text followed by the requested name in double quotes. `MissLeavesTableAndNamesSymbol` proves the name is in it. |
| CpuRuntime.Memoize | tile/hal/cpu/runtime.cc:78-81 | The table afterwards extends the old one. It gains exactly the requested name, and only on success, mapped to the resolved address. |
| CpuRuntime.DynamicLibrary.SearchForAddressOfSymbol | tile/hal/cpu/runtime.cc:71 | The answer is the exported address or null, and the name is appended to the linker's log. |
| CpuRuntime.SymbolTable.constructor | tile/hal/cpu/runtime.cc:60-65 | The function-static table starts as exactly the ten builtin entries. |
| CpuRuntime.Runtime.constructor | tile/hal/cpu/runtime.cc:59-60 | A runtime resolves through the process-wide table it is given. |
| CpuRuntime.Runtime.FindSymbol | tile/hal/cpu/runtime.cc:59-86 | The result is `Resolve` on the shared table, and the shared table becomes `Memoize`. The linker is asked exactly the `Searches` names, in order. The builtin entries are kept. |
| CpuRuntime.Runtime.FindSymbolInLogicalDylib | tile/hal/cpu/runtime.cc:88 | The answer is never an evaluated symbol, whatever the name. |
| CpuRuntime.FindFromTwoRuntimes | tile/hal/cpu/runtime.cc:59-86 | Two runtimes sharing the process-wide table give the same answer for a name. Once the first has resolved it, the second asks the linker nothing. A name the first fails on is searched for again. |
| CpuRuntime.BuiltinResolvesWithoutSearch | tile/hal/cpu/runtime.cc:60-69 | A builtin name resolves to its builtin entry, with no linker search and no change to the table. |
| CpuRuntime.ConversionAliases | tile/hal/cpu/runtime.cc:61-62 | `___truncsfhf2` and `__gnu_f2h_ieee` resolve to the same function, f2h. `___extendhfsf2` and `__gnu_h2f_ieee` resolve to the same function, h2f. |
| CpuRuntime.NoRetryWithoutStrippableUnderscore | tile/hal/cpu/runtime.cc:75-77 | A lone `_`, and a name not starting with `_`, are searched exactly once. |
| CpuRuntime.StrippedHitMemoizedUnderRequestedName | tile/hal/cpu/runtime.cc:75-81 | A name found only without its underscore resolves through the retry, after two searches. It is memoized under the unstripped name. |
| CpuRuntime.MissLeavesTableAndNamesSymbol | tile/hal/cpu/runtime.cc:83-85 | A total miss leaves the table unchanged, and the thrown message contains the requested name. |
| CpuRuntime.TableOnlyGrows | tile/hal/cpu/runtime.cc:78-81 | After any series of lookups, every entry of the old table is still there with the same address. |
| CpuRuntime.BuiltinsSurvive | tile/hal/cpu/runtime.cc:60-65 | After any series of lookups, the builtin entries are still in the table, unchanged. |
| CpuRuntime.ResolvedNameIsMemoized | tile/hal/cpu/runtime.cc:66-69 | Once a name has resolved, a later lookup gives the same answer with no linker search, whatever other lookups came between. |
| LineNumbers.NewlineIndex | tile/hal/opencl/compiler.cc:123 | The index is that of the first newline, or the length when there is no newline. |
| LineNumbers.Lines | tile/hal/opencl/compiler.cc:123 | No line `getline` reads contains a newline. There are no lines exactly when the input is empty. |
| LineNumbers.Decimal | tile/hal/opencl/compiler.cc:124 | The digits are non-empty, all decimal, and have no leading zero. |
| LineNumbers.Pad5 | tile/hal/opencl/compiler.cc:124 | `setw(5)` right-aligns the number with spaces in a field five wide. `Pad5RoundTrip` proves the width and that the field reads back as the number. |
| LineNumbers.NumberedFrom | tile/hal/opencl/compiler.cc:121-125 | The text written for the lines from number `first` on: each line labelled and followed by a newline. `NumberedLinesRoundTrip` proves which labelled lines it holds, and `WithLineNumbers` that the loop writes it. |
| LineNumbers.GetLine | tile/hal/opencl/compiler.cc:123 | The line read ends at the first newline from `pos` on, or at the end of the input. |
| LineNumbers.LinesStep | tile/hal/opencl/compiler.cc:123 | One `getline` call consumes one line and its newline. The lines after it are those of the rest. |
| LineNumbers.WithLineNumbers | tile/hal/opencl/compiler.cc:118-127 | The loop's output is the numbered text of the input's lines, numbered from 1. |
| LineNumbers.Pad5HasNoNewline | tile/hal/opencl/compiler.cc:124 | The padded number holds no newline. |
| LineNumbers.DecimalRoundTrip | tile/hal/opencl/compiler.cc:124 | Reading the printed digits back gives the number. |
| LineNumbers.TrimLeftSpaces | tile/hal/opencl/compiler.cc:124 | Fill spaces in front of the digits are removed again by trimming. |
| LineNumbers.Pad5RoundTrip | tile/hal/opencl/compiler.cc:124 | `setw(5)` gives a field exactly five wide for numbers below 100000, and never narrower. Trimmed, the field reads back as the number. |
| LineNumbers.DecimalLength | tile/hal/opencl/compiler.cc:124 | Numbers below 100000 have at most five digits, below 10000 at most four, below 1000 at most three, and below 100 at most two. |
| LineNumbers.LabelledFrom | tile/hal/opencl/compiler.cc:123-125 | There is one labelled line per input line. |
| LineNumbers.NumberedLinesAre | tile/hal/opencl/compiler.cc:123-125 | The output, read back line by line, is the input lines labelled with consecutive numbers. |
| LineNumbers.LabelledAt | tile/hal/opencl/compiler.cc:124 | The k-th labelled line is the k-th input line labelled with `first + k`. |
| LineNumbers.NumberedLinesRoundTrip | tile/hal/opencl/compiler.cc:123-125 | The output has one line per input line. The k-th is the padded number `first + k`, then `": "`, then the k-th input line. |
| LineNumbers.NumberedHead | tile/hal/opencl/compiler.cc:124 | The first output line is the first input line, labelled. The rest is the output for the rest. |
| LineNumbers.NumberedEndsWithNewline | tile/hal/opencl/compiler.cc:124 | The output is empty or ends with a newline. |
| LineNumbers.JoinLines | tile/hal/opencl/compiler.cc:123 | The lines `getline` reads, each with a newline, give back the input, with a newline added when the last one was missing. |
| LineNumbers.WithLineNumbersLayout | tile/hal/opencl/compiler.cc:118-127 | There is exactly one numbered line per input line, numbered 1, 2, … in order. Empty input gives empty output, and the output ends with a newline. |
| KernelUnit.AfterLastDot | tile/hal/opencl/compiler.cc:282 | The index is just past the last `.`, with no `.` after it. |
| KernelUnit.Stem | tile/hal/opencl/compiler.cc:282 | The name without its extension is a prefix of the name. A name without a dot is its own stem. Otherwise the stem is followed by a dot, and no dot comes after that one. |
| KernelUnit.CachePath | tile/hal/opencl/compiler.cc:282 | The cache path lies under the cache directory and ends in `.cl`. `CachePathOfPlainName` gives it for a name without a dot. |
| KernelUnit.CachePathOfPlainName | tile/hal/opencl/compiler.cc:282 | A kernel name without a dot is cached as the directory, a `/` unless the directory ends in one, the name and `.cl`. |
| KernelUnit.CachePathInjective | tile/hal/opencl/compiler.cc:282 | Two different kernel names without a dot never share a cache path. |
| KernelUnit.Rendered | tile/hal/opencl/compiler.cc:275-279 | A kernel's fresh source: its descriptor comments, then what the renderer emits for the device's fp16 and fp64 flags. |
| KernelUnit.CachedSource | tile/hal/opencl/compiler.cc:281-290 | An emitted kernel's source: the cached file when the cache directory exists and holds its path, else the rendering. `CacheHitWins` and `CacheMissWritesRendering` state both cases for the pass. |
| KernelUnit.CacheAfter | tile/hal/opencl/compiler.cc:281-290 | The rendering is written under the kernel's path exactly when the cache directory exists and the path is not yet there. `CacheKeys` states which files the pass adds. |
| KernelUnit.Step | tile/hal/opencl/compiler.cc:265-311 | One iteration appends exactly one record, for this kernel, with its name and metadata. It keeps every cache file and every emitted function name. |
| KernelUnit.Pass | tile/hal/opencl/compiler.cc:265-311 | The kernel loop: one `Step` per kernel, in order, from no kernel text, no records, no emitted names and the starting cache. `OneRecordPerKernel`, `KernelText`, `EmittedNames` and `CacheKeys` state what it computes, and `EmitKernels` that the loop computes it. |
| KernelUnit.Unit | tile/hal/opencl/compiler.cc:177-311 | The unit of a non-empty kernel list: the preamble, then the kernel text of the pass. `UnitLayout` and `ExtensionsRoundTrip` state its layout. |
| KernelUnit.ExtensionPragmas | tile/hal/opencl/compiler.cc:177-190 | The fp16 pragma, the fp64 pragma and the subgroup block, in that order, each only when the device reports that extension. |
| KernelUnit.Preamble | tile/hal/opencl/compiler.cc:177-263 | The extension pragmas, then the `custom` definitions. |
| KernelUnit.PassSnoc | tile/hal/opencl/compiler.cc:265-311 | Running the loop over one more kernel is one more step. |
| KernelUnit.PassPrefix | tile/hal/opencl/compiler.cc:265-311 | The loop over a prefix records a prefix of the records. Its cache is contained in the final cache. |
| KernelUnit.PassLength | tile/hal/opencl/compiler.cc:310 | There is one record, that is one kernel id, per kernel. |
| KernelUnit.EmittedNames | tile/hal/opencl/compiler.cc:271-274 | The emitted function names are exactly the functions of the non-zero kernels seen. |
| KernelUnit.RecordAt | tile/hal/opencl/compiler.cc:265-311 | Record i is the one that step i appends. |
| KernelUnit.OneRecordPerKernel | tile/hal/opencl/compiler.cc:265-311 | There is one record per kernel, in input order, with its name and metadata. A zero kernel records `// Builtin zero kernel`. A repeated function records `// Duplicate`. |
| KernelUnit.EmittedAt | tile/hal/opencl/compiler.cc:273 | A kernel's function is already emitted exactly when an earlier non-zero kernel has that function. |
| KernelUnit.KernelText | tile/hal/opencl/compiler.cc:271-305 | The kernel text is the recorded source of each first-of-function kernel, each followed by `"\n\n"`, in input order. Zero kernels and repeated functions add nothing. |
| KernelUnit.UnitLayout | tile/hal/opencl/compiler.cc:177-300 | The unit is the preamble, then that kernel text. |
| KernelUnit.CacheOnlyGrows | tile/hal/opencl/compiler.cc:281-290 | No cache file is removed or rewritten. |
| KernelUnit.NoCacheDirectoryNoFiles | tile/hal/opencl/compiler.cc:281-297 | Without a cache directory, the files are unchanged and every emitted kernel's source is its rendering. |
| KernelUnit.CacheHitWins | tile/hal/opencl/compiler.cc:281-285 | A file already cached under an emitted kernel's path is its source. |
| KernelUnit.EmittedSourceIsCached | tile/hal/opencl/compiler.cc:281-290 | After the pass, the cache holds exactly each emitted kernel's source under that kernel's path. |
| KernelUnit.CacheKeys | tile/hal/opencl/compiler.cc:281-290 | With the cache directory present, the files after the pass are exactly the starting files plus the path of every kernel that is the first of its function. |
| KernelUnit.CacheMissWritesRendering | tile/hal/opencl/compiler.cc:286-289 | With the cache directory present, an emitted kernel whose path is not cached, and not written earlier in the pass, gets its fresh rendering as its source. The cache holds that rendering under its path afterwards. |
| KernelUnit.RebuildReturnsCachedSource | tile/hal/opencl/compiler.cc:281-290 | A later build of a kernel with the same name gets the earlier source, whatever it now renders to. |
| KernelUnit.PragmaMarks | tile/hal/opencl/compiler.cc:179-184 | The two pragmas have the same length and differ at a known position. |
| KernelUnit.SubgroupMark | tile/hal/opencl/compiler.cc:154-162 | The subgroup block starts with a newline. |
| KernelUnit.CustomMark | tile/hal/opencl/compiler.cc:200 | The `custom` definitions start with the `typedef`. |
| KernelUnit.ReadMarkersRoundTrip | tile/hal/opencl/compiler.cc:177-190 | Markers that can be told apart, written optionally in a fixed order, read back as the same choice. |
| KernelUnit.ExtensionsRoundTrip | tile/hal/opencl/compiler.cc:177-263 | The start of a unit shows exactly which of fp16, fp64 and subgroups the device reported. |
| BuildProtocol.FillBuffer | tile/hal/opencl/compiler.cc:136-138 | The buffer has the queried size. Each character is the driver's text or the initial NUL. |
| BuildProtocol.LogQuery | tile/hal/opencl/compiler.cc:130-145 | A log exists exactly when both the size query and the fill query succeed. It is the filled buffer. |
| BuildProtocol.ErrorInfo | tile/hal/opencl/compiler.cc:129-148 | Only the log may change, and only when both queries succeed. |
| BuildProtocol.Settle | tile/hal/opencl/compiler.cc:100-115 | The promise is always settled. It holds the library exactly when the status is `CL_BUILD_SUCCESS`, and only then is the build info attached. A failed status query gives its error. Any other status is stored and gives the compile failure. |
| BuildProtocol.FailedBuildKeepsStatus | tile/hal/opencl/compiler.cc:107-112 | A failed build stores its status. It stores a log only when one could be read, and attaches no metadata. |
| BuildProtocol.FullLogRoundTrip | tile/hal/opencl/compiler.cc:136-144 | A log that fills its buffer exactly is stored unchanged. |
| BuildProtocol.Promise.constructor | tile/hal/opencl/compiler.cc:55 | A new promise is unset. |
| BuildProtocol.Promise.Ready | tile/hal/opencl/compiler.cc:171-172 | A ready future holds the library from the start. |
| BuildProtocol.Promise.SetValue | tile/hal/opencl/compiler.cc:106 | The promise must be unset, and then holds the library. |
| BuildProtocol.Promise.SetException | tile/hal/opencl/compiler.cc:114 | The promise must be unset, and then holds the exception. |
| BuildProtocol.Driver.CreateProgramWithSource | tile/hal/opencl/compiler.cc:320-323 | A refused unit gives the driver's error text and creates nothing. Otherwise a new program with that source is created. |
| BuildProtocol.Driver.BuildProgram | tile/hal/opencl/compiler.cc:75-76 | The build request is logged with its options and handle. The result is the driver's error code. |
| BuildProtocol.Build.constructor | tile/hal/opencl/compiler.cc:85-91 | A new build holds its library, a fresh unset promise and the given build info. |
| BuildProtocol.Build.OnError | tile/hal/opencl/compiler.cc:129-148 | The build info becomes `ErrorInfo`, and the result is always the compile failure. |
| BuildProtocol.PendingCallbackMap.constructor | tile/hal/opencl/compiler.cc:61 | The map starts empty. |
| BuildProtocol.PendingCallbackMap.Acquire | tile/hal/opencl/compiler.cc:74 | The build is parked under a handle never handed out before, and nothing else changes. |
| BuildProtocol.PendingCallbackMap.Release | tile/hal/opencl/compiler.cc:94-98 | The parked build is taken out and returned, or none when the handle was already released. |
| BuildProtocol.OnBuildComplete | tile/hal/opencl/compiler.cc:93-116 | The handle is released. An unknown handle changes nothing else. A parked build's promise, build info and metadata become what `Settle` says. |
| BuildProtocol.Start | tile/hal/opencl/compiler.cc:63-83 | A fresh build is parked under the next handle and submitted with the fixed options. If the driver accepts, it stays parked and unset. If the driver refuses, it is completed at once as `Settle` says. |
| BuildProtocol.StartAndComplete | tile/hal/opencl/compiler.cc:74-98 | However many times the completion handler is called, the promise ends as `Settle` says and the pending map is as before. |
| OpenCLCompiler.FileSystem.WriteFile | tile/hal/opencl/compiler.cc:288 | The path holds the contents afterwards. |
| OpenCLCompiler.FileSystem.IsDirectory | tile/hal/opencl/compiler.cc:281 | Only a path listed as a directory is one, and the empty path never is. |
| OpenCLCompiler.DeviceExtensions | tile/hal/opencl/compiler.cc:177-188 | The fp16, fp64 and subgroup flags are whether the device reports `cl_khr_fp16`, `cl_khr_fp64` and `cl_intel_subgroups`. |
| OpenCLCompiler.CreateFailure | tile/hal/opencl/compiler.cc:320-323 | The message of a refused unit names the driver's error. |
| OpenCLCompiler.PreambleFor | tile/hal/opencl/compiler.cc:177-263 | The code is the device's pragmas followed by the `custom` definitions. |
| OpenCLCompiler.EmitKernels | tile/hal/opencl/compiler.cc:265-311 | The loop's kernel text, records and cache are those of `Pass`. |
| OpenCLCompiler.AssembleUnit | tile/hal/opencl/compiler.cc:177-311 | The unit is `Unit` for the device's extensions and cache setting. The records and the cache are those of `Pass`. |
| OpenCLCompiler.Compiler.constructor | tile/hal/opencl/compiler.cc:152 | The compiler keeps its device. |
| OpenCLCompiler.Compiler.Build | tile/hal/opencl/compiler.cc:164-327 | An empty list gives a ready, empty library with no kernel ids and touches nothing else. A refused unit is a failure naming the driver's error. Otherwise the unit becomes a new program whose build is started as `Start` describes. |

## Left out

- The runtime's own support functions (`rt::barrier`, `h2f`, `f2h`, `_add`, `_sub`, `_mul`, `_div`, `_neg`): these are float arithmetic and printing to stdout. They are opaque function identities in the table.
- The numeric meaning of the `custom` definitions: the model keeps only their exact text, because they run as device float code.
- Thread safety of the pending-callback map and of the static symbol table: both are modelled sequentially.
- Logging (`LOG`, `VLOG`) and the `VLOG(4)` debug printing of kernels. `WithLineNumbers` is modelled on its own, because the build only uses it inside log statements.
- `OptimizeKernel`, `Emit` and the hardware settings: they form the renderer oracle, a deterministic function of the fp16 flag, the fp64 flag and the descriptor.
- The OpenCL driver and `llvm::sys::DynamicLibrary` are oracles; their implementations are not part of this model.
- `context::Activity`: a kernel's build activity is represented by the record it carries (name, source and metadata), and the build's activity by the metadata attached to the build.
- KernelUnit.CachePath: models boost's `path / kname` and `replace_extension("cl")` only for kernel names that are plain file names. Names containing `/`, empty names and path normalisation are not modelled.
- Failures of `ReadFile` and `WriteFile`, and of `AddMetadata`, are not modelled: the calls always succeed.
- `is_regular_file` is modelled as the path being present in the file map. Directories, links and other file types are not modelled.
- LineNumbers.WithLineNumbers: the line counter is an unbounded number, so the wrap-around of a `size_t` after 2^64 lines is not modelled.
- BuildProtocol.PendingCallbackMap.Acquire: handles come from a counter and are never reused. The real map's handle scheme is not part of this model.
- The text of `Err::str()` for a refused program is the driver oracle's error string.
- `tile/hal/opencl/cl_emu.h` holds only a declaration, and the Keras scripts under `plaidml/keras` are demo and training programs; neither is modelled.
