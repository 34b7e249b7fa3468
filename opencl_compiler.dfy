/**
 * `Compiler::Build` of the OpenCL back end: assemble one compilation unit
 * for a list of kernels, create a program from it and start its build.
 *
 * The device is reduced to its id and the extensions it reports, the file
 * system to its directories and regular files, and the environment variable
 * naming the cache directory to its value (empty when unset).
 */
module OpenCLCompiler {
  import opened Wrappers
  import opened KernelUnit
  import opened BuildProtocol

  /** The device a compiler builds for: its id and the extensions it reports. */
  datatype DeviceState = DeviceState(id: string, extensions: set<string>)

  /** The extensions of the device that the unit depends on. */
  function DeviceExtensions(device: DeviceState): Extensions {
    Extensions("cl_khr_fp16" in device.extensions, "cl_khr_fp64" in device.extensions,
               "cl_intel_subgroups" in device.extensions)
  }

  /** The message of the exception thrown when the driver refuses the unit. */
  function CreateFailure(err: string): string {
    "creating an OpenCL program object: " + err
  }

  /** The file system the cache lives in: its directories and its regular files with their contents. */
  class FileSystem {
    const dirs: set<string>
    var files: map<string, string>

    constructor (dirs: set<string>, files: map<string, string>)
      ensures this.dirs == dirs && this.files == files
    {
      this.dirs := dirs;
      this.files := files;
    }

    /** `is_directory`: the empty path never names a directory. */
    predicate IsDirectory(path: string)
    {
      path != [] && path in dirs
    }

    /** `WriteFile`: `path` holds `contents` afterwards. */
    method WriteFile(path: string, contents: string)
      modifies this`files
      ensures files == old(files)[path := contents]
    {
      files := files[path := contents];
    }
  }

  /** Appending `text` when `present` is appending its optional form. */
  lemma AppendOptional(code: string, present: bool, text: string)
    ensures (if present then code + text else code) == code + Optional(present, text)
  {
    if !present {
      assert code + [] == code;
    }
  }

  /** The extension pragmas the device calls for, then the `custom` definitions. */
  method PreambleFor(ext: Extensions) returns (code: string)
    ensures code == Preamble(ext)
  {
    if ext.fp16 {
      code := Fp16Pragma;
    } else {
      code := [];
    }
    ghost var before := code;
    if ext.fp64 {
      code := code + Fp64Pragma;
    }
    AppendOptional(before, ext.fp64, Fp64Pragma);
    before := code;
    if ext.subgroups {
      code := code + SubgroupMicrokernels;
    }
    AppendOptional(before, ext.subgroups, SubgroupMicrokernels);
    code := code + CustomPreamble;
  }

  /**
   * The kernel loop of `Compiler::Build`: the kernel text, the kernel
   * records and the cache afterwards are the ones `Pass` describes.
   */
  method EmitKernels(env: Env, kernels: seq<KernelInfo>, fs: FileSystem)
    returns (code: string, kernelIds: seq<KernelRecord>)
    requires env.cacheOn == fs.IsDirectory(env.cacheDir)
    modifies fs`files
    ensures code == Pass(env, old(fs.files), kernels).code
    ensures kernelIds == Pass(env, old(fs.files), kernels).records
    ensures fs.files == Pass(env, old(fs.files), kernels).files
  {
    ghost var files0 := fs.files;
    code := [];
    var knames: set<string> := {};
    kernelIds := [];
    for i := 0 to |kernels|
      invariant code == Pass(env, files0, kernels[..i]).code
      invariant kernelIds == Pass(env, files0, kernels[..i]).records
      invariant knames == Pass(env, files0, kernels[..i]).knames
      invariant fs.files == Pass(env, files0, kernels[..i]).files
    {
      var ki := kernels[i];
      PassSnoc(env, files0, kernels, i);
      var src: string;
      if ki.ktype == Zero {
        src := ZeroKernelSrc;
      } else if ki.funcName !in knames {
        knames := knames + {ki.funcName};
        src := ki.comments + env.render(env.ext.fp16, env.ext.fp64, ki);
        if fs.IsDirectory(env.cacheDir) {
          var path := CachePath(env.cacheDir, ki.kname);
          if path in fs.files {
            src := fs.files[path];
          } else {
            fs.WriteFile(path, src);
          }
        }
        code := code + src + KernelSeparator;
      } else {
        src := DuplicateSrc;
      }
      kernelIds := kernelIds + [KernelRecord(ki.kname, src, ki.info)];
    }
    assert kernels[..|kernels|] == kernels;
  }

  /**
   * The unit `Compiler::Build` compiles for a non-empty kernel list: the
   * device's pragmas, the `custom` definitions, then the kernel loop.
   */
  method AssembleUnit(device: DeviceState, kernels: seq<KernelInfo>, cacheEnv: string, render: Renderer,
                      fs: FileSystem)
    returns (code: string, kernelIds: seq<KernelRecord>)
    modifies fs`files
    ensures var env := Env(DeviceExtensions(device), render, fs.IsDirectory(cacheEnv), cacheEnv);
            && code == Unit(env, old(fs.files), kernels)
            && kernelIds == Pass(env, old(fs.files), kernels).records
            && fs.files == Pass(env, old(fs.files), kernels).files
  {
    var ext := DeviceExtensions(device);
    code := PreambleFor(ext);
    var env := Env(ext, render, fs.IsDirectory(cacheEnv), cacheEnv);
    var body;
    body, kernelIds := EmitKernels(env, kernels, fs);
    code := code + body;
  }

  /** A compiler for one device. */
  class Compiler {
    const device: DeviceState

    constructor (device: DeviceState)
      ensures this.device == device
    {
      this.device := device;
    }

    /**
     * `Compiler::Build`.  An empty kernel list gives a promise that already
     * holds an empty library, and nothing else happens.  Otherwise the unit
     * is the one `Unit` describes and the cache is left as `Pass` says; a
     * unit the driver refuses is an error, and any other unit becomes a
     * program whose build is started as `Start` describes.
     */
    method Build(kernels: seq<KernelInfo>, cacheEnv: string, render: Renderer,
                 fs: FileSystem, driver: Driver, pending: PendingCallbackMap)
      returns (r: Result<Promise, string>)
      requires pending.Valid()
      modifies fs`files, driver`created, driver`submissions, pending
      ensures pending.Valid()
      ensures kernels == [] ==>
                && r.Success? && fresh(r.value)
                && r.value.state == Value(Library(device.id, None, [], []))
                && fs.files == old(fs.files) && driver.created == old(driver.created)
                && driver.submissions == old(driver.submissions)
                && pending.records == old(pending.records) && pending.next == old(pending.next)
      ensures kernels != [] ==>
                var env := Env(DeviceExtensions(device), render, fs.IsDirectory(cacheEnv), cacheEnv);
                var pass := Pass(env, old(fs.files), kernels);
                var unit := Unit(env, old(fs.files), kernels);
                var program := Program(|old(driver.created)|, unit);
                var library := Library(device.id, Some(program), kernels, pass.records);
                var binfo := BuildInfo(device.id, unit, None, None);
                var handle := old(pending.next);
                && fs.files == pass.files
                && (driver.rejects(unit).Some? ==>
                      && r == Failure(CreateFailure(driver.rejects(unit).value))
                      && driver.created == old(driver.created) && driver.submissions == old(driver.submissions)
                      && pending.records == old(pending.records) && pending.next == old(pending.next))
                && (driver.rejects(unit).None? ==>
                      && r.Success? && fresh(r.value)
                      && driver.created == old(driver.created) + [program]
                      && driver.submissions == old(driver.submissions) + [Submission(program, device.id, BuildOptions, handle)]
                      && pending.next == handle + 1)
                && (driver.rejects(unit).None? && driver.submitError(program) == ClSuccess ==>
                      && handle in pending.records
                      && pending.records == old(pending.records)[handle := pending.records[handle]]
                      && pending.records[handle].prom == r.value && r.value.state == Unset
                      && pending.records[handle].library == library && pending.records[handle].binfo == binfo)
                && (driver.rejects(unit).None? && driver.submitError(program) != ClSuccess ==>
                      && pending.records == old(pending.records)
                      && r.value.state == Settle(driver.answers(program), library, binfo).outcome)
    {
      if |kernels| == 0 {
        var ready := new Promise.Ready(Library(device.id, None, kernels, []));
        return Success(ready);
      }

      var code, kernelIds := AssembleUnit(device, kernels, cacheEnv, render, fs);

      var created := driver.CreateProgramWithSource(code);
      if created.Failure? {
        return Failure(CreateFailure(created.error));
      }
      var binfo := BuildInfo(device.id, code, None, None);
      var prom, build, handle := Start(pending, driver, device.id, created.value, kernels, binfo, kernelIds);
      return Success(prom);
    }
  }
}
