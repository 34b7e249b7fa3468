/**
 * The kernel pass of `Compiler::Build` in the OpenCL back end: how one
 * compilation unit is assembled from a list of kernel descriptors.
 *
 * The unit is the extension pragmas the device supports, a fixed preamble
 * that defines the emulated `custom` type, then the source of every kernel
 * whose function has not been emitted before, each followed by a blank line.
 * Each descriptor also gets one build activity, recorded here by the
 * metadata it carries.  Kernel sources may come from an on-disk cache keyed
 * by kernel name; the cache is a map from path to contents.
 */
module KernelUnit {

  /** `lang::KernelType`: the zero kernel needs no source. */
  datatype KernelType = Zero | Function

  /**
   * A `lang::KernelInfo`, reduced to what the pass reads: the kernel name, its
   * type, the name of its function (`kfunc->name`), the descriptor comments
   * and the metadata copied into the kernel's build record.
   */
  datatype KernelInfo = KernelInfo(kname: string, ktype: KernelType, funcName: string, comments: string, info: string)

  /** The device extensions the pass asks about. */
  datatype Extensions = Extensions(fp16: bool, fp64: bool, subgroups: bool)

  /**
   * Optimizing and emitting one kernel as OpenCL C, given whether fp16 and
   * fp64 are supported: an oracle here.
   */
  type Renderer = (bool, bool, KernelInfo) -> string

  /**
   * What the pass is given: the device's extensions, the renderer, whether the
   * cache directory exists, and its path.
   */
  datatype Env = Env(ext: Extensions, render: Renderer, cacheOn: bool, cacheDir: string)

  /** The `proto::KernelInfo` attached to a kernel's build activity. */
  datatype KernelRecord = KernelRecord(kname: string, src: string, info: string)

  /** The loop's state: the unit's kernel text so far, the kernel records, the emitted function names, the cache. */
  datatype PassState = PassState(code: string, records: seq<KernelRecord>, knames: set<string>, files: map<string, string>)

  /** The directive that enables an OpenCL extension, up to the extension's name. */
  const EnableExtension: string := "#pragma OPENCL EXTENSION "

  const Fp16Pragma: string := EnableExtension + "cl_khr_fp16 : enable\n"
  const Fp64Pragma: string := EnableExtension + "cl_khr_fp64 : enable\n"

  /** The block-read and block-write macros emitted when the device has Intel subgroups. */
  const SubgroupMicrokernels: string :=
      "\n\n" + EnableExtension + "cl_intel_subgroups : enable\n\n"
    + ("#define vector_load(x) as_float(intel_sub_group_block_read((const global int*) (&(x))))\n"
    + "#define vector_store(x, v) intel_sub_group_block_write((const global int*) (&(x)), as_uint(v))\n\n")

  /** Line `i` of the definitions of the emulated `custom` type and its operations; nothing past the last. */
  function CustomPreambleLine(i: int): string {
    match i
    case 0 => "typedef struct {\n"
    case 1 => "  float d;\n"
    case 2 => "} custom;\n"
    case 3 => "#define CUSTOM_MAX as_custom(FLT_MAX)\n"
    case 4 => "#define CUSTOM_MIN as_custom(FLT_MIN)\n"
    case 5 => "__local custom __OVERLOADABLE__ as_custom(float a, int b) {\n"
    case 6 => "  custom c;\n"
    case 7 => "  vstore_half(a, 0, (half*)&c.d);\n"
    case 8 => "  return c;\n"
    case 9 => "}\n"
    case 10 => "__local custom __OVERLOADABLE__ as_custom(float a) {\n"
    case 11 => "  return as_custom(a, 32);\n"
    case 12 => "}\n"
    case 13 => "__local custom __OVERLOADABLE__ as_custom(int a) {\n"
    case 14 => "  return as_custom((float)a);\n"
    case 15 => "}\n"
    case 16 => "__local custom __OVERLOADABLE__ as_custom(custom a) {\n"
    case 17 => "  return a;\n"
    case 18 => "}\n"
    case 19 => "__local custom __OVERLOADABLE__ as_custom(custom a, int b) {\n"
    case 20 => "  return a;\n"
    case 21 => "}\n"
    case 22 => "__local float __OVERLOADABLE__ as_float(custom a) {\n"
    case 23 => "  return vload_half(0, (half*)&a.d);\n"
    case 24 => "}\n"
    case 25 => "__local uint __OVERLOADABLE__ as_uint(custom a) {\n"
    case 26 => "  return as_uint(as_float(a));\n"
    case 27 => "}\n"
    case 28 => "__local custom __OVERLOADABLE__ native_log(custom a) {\n"
    case 29 => "  return as_custom(native_log(as_float(a)));\n"
    case 30 => "}\n"
    case 31 => "__local custom __OVERLOADABLE__ native_exp(custom a) {\n"
    case 32 => "  return as_custom(native_exp(as_float(a)));\n"
    case 33 => "}\n"
    case 34 => "__local custom __OVERLOADABLE__ native_sqrt(custom a) {\n"
    case 35 => "  return as_custom(native_sqrt(as_float(a)));\n"
    case 36 => "}\n"
    case 37 => "__local custom __OVERLOADABLE__ add(custom a, custom b) {\n"
    case 38 => "  return as_custom(as_float(a) + as_float(b));\n"
    case 39 => "}\n"
    case 40 => "__local custom __OVERLOADABLE__ sub(custom a, custom b) {\n"
    case 41 => "  return as_custom(as_float(a) - as_float(b));\n"
    case 42 => "}\n"
    case 43 => "__local custom __OVERLOADABLE__ mul(custom a, custom b) {\n"
    case 44 => "  return as_custom(as_float(a) * as_float(b));\n"
    case 45 => "}\n"
    case 46 => "__local custom __OVERLOADABLE__ div(custom a, custom b) {\n"
    case 47 => "  return as_custom(as_float(a) / as_float(b));\n"
    case 48 => "}\n"
    case 49 => "__local int __OVERLOADABLE__ le(custom a, custom b) {\n"
    case 50 => "  return as_float(a) < as_float(b);\n"
    case 51 => "}\n"
    case 52 => "__local int __OVERLOADABLE__ ge(custom a, custom b) {\n"
    case 53 => "  return as_float(a) > as_float(b);\n"
    case 54 => "}\n"
    case 55 => "__local int __OVERLOADABLE__ eq(custom a, custom b) {\n"
    case 56 => "  return as_float(a) == as_float(b);\n"
    case 57 => "}\n"
    case 58 => "__local custom __OVERLOADABLE__ neg(custom a) {\n"
    case 59 => "  return as_custom(-as_float(a));\n"
    case 60 => "}\n"
    case 61 => "__local custom __OVERLOADABLE__ select(custom a, custom b, custom c) {\n"
    case 62 => "  return as_custom(select(as_float(a), as_float(b), (int)as_float(c)));\n"
    case 63 => "}\n"
    case _ => []
  }

  /** The lines of the definitions of the emulated `custom` type and its operations. */
  function CustomPreambleLines(): seq<string> {
    seq(64, CustomPreambleLine)
  }

  /** The lines, streamed one after the other. */
  function Concat(lines: seq<string>): string
    decreases |lines|
  {
    if lines == [] then [] else Concat(lines[..|lines| - 1]) + lines[|lines| - 1]
  }

  /** The definition of the emulated `custom` type and its operations, emitted once per unit. */
  const CustomPreamble: string := Concat(CustomPreambleLines())

  /** The source recorded for a zero kernel. */
  const ZeroKernelSrc: string := "// Builtin zero kernel"

  /** The source recorded for a kernel whose function was already emitted. */
  const DuplicateSrc: string := "// Duplicate"

  /** What follows every kernel source in the unit. */
  const KernelSeparator: string := "\n\n"

  /** `text` when `present`, nothing otherwise. */
  function Optional(present: bool, text: string): string {
    if present then text else []
  }

  /** The pragmas and macros for the extensions the device reports, in the order fp16, fp64, subgroups. */
  function ExtensionPragmas(x: Extensions): string {
    Optional(x.fp16, Fp16Pragma) + Optional(x.fp64, Fp64Pragma) + Optional(x.subgroups, SubgroupMicrokernels)
  }

  /** Everything the unit holds before the first kernel. */
  function Preamble(x: Extensions): string {
    ExtensionPragmas(x) + CustomPreamble
  }

  /** Reads back which of the three markers, in this order, a text starts with. */
  function ReadMarkers(p16: string, p64: string, sg: string, unit: string): Extensions {
    var afterFp16 := SkipMarker(p16, unit);
    var afterFp64 := SkipMarker(p64, afterFp16);
    Extensions(p16 <= unit, p64 <= afterFp16, sg <= afterFp64)
  }

  /** What follows the marker `p` when `text` starts with it, else all of `text`. */
  function SkipMarker(p: string, text: string): string {
    if p <= text then text[|p|..] else text
  }

  /** Reads back, from the start of a unit, which extensions it was written for. */
  function ReportedExtensions(unit: string): Extensions {
    ReadMarkers(Fp16Pragma, Fp64Pragma, SubgroupMicrokernels, unit)
  }

  /** The index just past the last '.' of `name` before `end`, or 0 when there is none. */
  function AfterLastDot(name: string, end: nat): (i: nat)
    requires end <= |name|
    ensures i <= end
    ensures i > 0 ==> name[i - 1] == '.'
    ensures forall j :: i <= j < end ==> name[j] != '.'
    decreases end
  {
    if end == 0 then 0 else if name[end - 1] == '.' then end else AfterLastDot(name, end - 1)
  }

  /** The file name without its extension, as `path::replace_extension` removes it ("." and ".." have none). */
  function Stem(name: string): (stem: string)
    ensures stem <= name
    ensures '.' !in name ==> stem == name
    ensures name != "." && name != ".." && '.' in name ==>
              |stem| < |name| && name[|stem|] == '.' && '.' !in name[|stem| + 1..]
  {
    var i := AfterLastDot(name, |name|);
    if name == "." || name == ".." || i == 0 then name else name[..i - 1]
  }

  /** `(cache_dir / kname).replace_extension("cl")` for a kernel name that is a plain file name. */
  function CachePath(dir: string, kname: string): (path: string)
    ensures dir <= path
    ensures |path| >= 3 && path[|path| - 3..] == ".cl"
  {
    var lead := if dir != [] && dir[|dir| - 1] == '/' then dir else dir + "/";
    var file := Stem(kname) + ".cl";
    assert file[|file| - 3..] == ".cl";
    assert (lead + file)[|lead + file| - 3..] == file[|file| - 3..];
    lead + file
  }

  /** A kernel name without a dot is cached as that name with `.cl` appended, in the cache directory. */
  lemma CachePathOfPlainName(dir: string, kname: string)
    requires dir != [] && '.' !in kname
    ensures dir[|dir| - 1] != '/' ==> CachePath(dir, kname) == dir + "/" + kname + ".cl"
    ensures dir[|dir| - 1] == '/' ==> CachePath(dir, kname) == dir + kname + ".cl"
  {
    assert Stem(kname) == kname;
    var file := kname + ".cl";
    if dir[|dir| - 1] == '/' {
      assert CachePath(dir, kname) == dir + file;
    } else {
      assert CachePath(dir, kname) == (dir + "/") + file;
    }
  }

  /** Two kernel names without a dot are cached under the same path only when they are the same name. */
  lemma CachePathInjective(dir: string, k1: string, k2: string)
    requires dir != [] && '.' !in k1 && '.' !in k2
    requires CachePath(dir, k1) == CachePath(dir, k2)
    ensures k1 == k2
  {
    var lead := if dir[|dir| - 1] == '/' then dir else dir + "/";
    var path := CachePath(dir, k1);
    CachePathOfPlainName(dir, k1);
    CachePathOfPlainName(dir, k2);
    assert path == lead + k1 + ".cl" && path == lead + k2 + ".cl";
    assert k1 == path[|lead|..|path| - 3];
  }

  /** The kernel's source as rendered: its comments, then the emitted code. */
  function Rendered(env: Env, ki: KernelInfo): string {
    ki.comments + env.render(env.ext.fp16, env.ext.fp64, ki)
  }

  /** The source of a kernel being emitted: the cached file when there is one, else the rendering. */
  function CachedSource(env: Env, files: map<string, string>, ki: KernelInfo): string {
    var path := CachePath(env.cacheDir, ki.kname);
    if env.cacheOn && path in files then files[path] else Rendered(env, ki)
  }

  /** The cache after a kernel is emitted: the rendering is written when the cache has no file for it. */
  function CacheAfter(env: Env, files: map<string, string>, ki: KernelInfo): map<string, string> {
    var path := CachePath(env.cacheDir, ki.kname);
    if env.cacheOn && path !in files then files[path := Rendered(env, ki)] else files
  }

  /**
   * One iteration of the kernel loop: it appends exactly one record, for this
   * kernel, keeps every cache file and every emitted name.
   */
  function Step(env: Env, st: PassState, ki: KernelInfo): (next: PassState)
    ensures |next.records| == |st.records| + 1 && next.records[..|st.records|] == st.records
    ensures next.records[|st.records|].kname == ki.kname && next.records[|st.records|].info == ki.info
    ensures FilesExtend(next.files, st.files) && st.knames <= next.knames
  {
    if ki.ktype == Zero then
      st.(records := st.records + [KernelRecord(ki.kname, ZeroKernelSrc, ki.info)])
    else if ki.funcName in st.knames then
      st.(records := st.records + [KernelRecord(ki.kname, DuplicateSrc, ki.info)])
    else
      var src := CachedSource(env, st.files, ki);
      PassState(st.code + src + KernelSeparator,
                st.records + [KernelRecord(ki.kname, src, ki.info)],
                st.knames + {ki.funcName},
                CacheAfter(env, st.files, ki))
  }

  /**
   * The kernel loop run over `ks`, starting from no kernel text and from
   * the cache `files`.
   */
  function Pass(env: Env, files: map<string, string>, ks: seq<KernelInfo>): PassState
    decreases |ks|
  {
    if ks == [] then PassState([], [], {}, files)
    else Step(env, Pass(env, files, ks[..|ks| - 1]), ks[|ks| - 1])
  }

  /** The whole unit for a non-empty kernel list. */
  function Unit(env: Env, files: map<string, string>, ks: seq<KernelInfo>): string {
    Preamble(env.ext) + Pass(env, files, ks).code
  }

  /** Some kernel before position `n` is a non-zero kernel of function `f`. */
  predicate EmittedBefore(ks: seq<KernelInfo>, n: nat, f: string)
    requires n <= |ks|
  {
    exists j :: 0 <= j < n && ks[j].ktype == Function && ks[j].funcName == f
  }

  /** Kernel `i` is the first non-zero kernel of its function. */
  predicate FirstOfFunction(ks: seq<KernelInfo>, i: nat)
    requires i < |ks|
  {
    ks[i].ktype == Function && !EmittedBefore(ks, i, ks[i].funcName)
  }

  /** Every entry of `small` is in `big` with the same contents. */
  predicate FilesExtend(big: map<string, string>, small: map<string, string>) {
    forall p :: p in small ==> p in big && big[p] == small[p]
  }

  /** A reference definition of the kernel text: the recorded source of each first-of-function kernel, in order. */
  function Body(ks: seq<KernelInfo>, records: seq<KernelRecord>): string
    requires |records| == |ks|
    decreases |ks|
  {
    if ks == [] then []
    else
      var n := |ks| - 1;
      Body(ks[..n], records[..n]) + (if FirstOfFunction(ks, n) then records[n].src + KernelSeparator else [])
  }

  // ---------------------------------------------------------------------------
  // Lemmas about the pass

  /** Running the loop one more kernel adds one step. */
  lemma PassSnoc(env: Env, files: map<string, string>, ks: seq<KernelInfo>, i: nat)
    requires i < |ks|
    ensures Pass(env, files, ks[..i + 1]) == Step(env, Pass(env, files, ks[..i]), ks[i])
  {
    assert ks[..i + 1][..i] == ks[..i];
  }

  /**
   * The loop over a prefix of the kernels is the start of the loop over all of
   * them: its records are a prefix, its cache a part of the final cache, its
   * emitted names a part of the final names.
   */
  lemma {:induction false} PassPrefix(env: Env, files: map<string, string>, ks: seq<KernelInfo>, m: nat)
    requires m <= |ks|
    ensures |Pass(env, files, ks).records| == |ks|
    ensures Pass(env, files, ks[..m]).records == Pass(env, files, ks).records[..m]
    ensures FilesExtend(Pass(env, files, ks).files, Pass(env, files, ks[..m]).files)
    decreases |ks|
  {
    if m == |ks| {
      assert ks[..m] == ks;
      PassLength(env, files, ks);
    } else {
      var n := |ks| - 1;
      var prev := ks[..n];
      PassPrefix(env, files, prev, m);
      assert prev[..m] == ks[..m];
      var all := Pass(env, files, ks).records;
      assert all[..m] == all[..n][..m];
      FilesExtendTransitive(Pass(env, files, ks).files, Pass(env, files, prev).files, Pass(env, files, ks[..m]).files);
    }
  }

  /** The loop records one build activity per kernel. */
  lemma {:induction false} PassLength(env: Env, files: map<string, string>, ks: seq<KernelInfo>)
    ensures |Pass(env, files, ks).records| == |ks|
    decreases |ks|
  {
    if ks != [] {
      PassLength(env, files, ks[..|ks| - 1]);
    }
  }

  /** A cache that extends one extending a third extends the third. */
  lemma FilesExtendTransitive(a: map<string, string>, b: map<string, string>, c: map<string, string>)
    requires FilesExtend(a, b) && FilesExtend(b, c)
    ensures FilesExtend(a, c)
  {
  }

  /** The names emitted after the loop are exactly the functions of its non-zero kernels. */
  lemma {:induction false} EmittedNames(env: Env, files: map<string, string>, ks: seq<KernelInfo>)
    ensures forall f :: f in Pass(env, files, ks).knames <==> EmittedBefore(ks, |ks|, f)
    decreases |ks|
  {
    if ks != [] {
      var n := |ks| - 1;
      var prev := ks[..n];
      EmittedNames(env, files, prev);
      forall f
        ensures f in Pass(env, files, ks).knames <==> EmittedBefore(ks, |ks|, f)
      {
        if EmittedBefore(ks, |ks|, f) {
          var j :| 0 <= j < |ks| && ks[j].ktype == Function && ks[j].funcName == f;
          if j < n {
            assert prev[j] == ks[j];
          }
        }
        if EmittedBefore(prev, n, f) {
          var j :| 0 <= j < n && prev[j].ktype == Function && prev[j].funcName == f;
          assert ks[j] == prev[j];
        }
      }
    }
  }

  /** Whether a function was emitted before kernel `i` depends only on the kernels before it. */
  lemma EmittedBeforePrefix(ks: seq<KernelInfo>, i: nat, f: string)
    requires i <= |ks|
    ensures EmittedBefore(ks[..i], i, f) <==> EmittedBefore(ks, i, f)
  {
    if EmittedBefore(ks, i, f) {
      var j :| 0 <= j < i && ks[j].ktype == Function && ks[j].funcName == f;
      assert ks[..i][j] == ks[j];
    }
  }

  /** Record `i` is the one step `i` appends, from the state the loop reached before kernel `i`. */
  lemma RecordAt(env: Env, files: map<string, string>, ks: seq<KernelInfo>, i: nat)
    requires i < |ks|
    ensures |Pass(env, files, ks).records| == |ks|
    ensures |Pass(env, files, ks[..i]).records| == i
    ensures Pass(env, files, ks).records[i] == Step(env, Pass(env, files, ks[..i]), ks[i]).records[i]
  {
    PassPrefix(env, files, ks, i + 1);
    PassPrefix(env, files, ks[..i], i);
    PassSnoc(env, files, ks, i);
  }

  /**
   * Every descriptor gets exactly one record, in input order, carrying its name
   * and metadata; a zero kernel records only the builtin marker, and a
   * non-zero kernel whose function was already emitted records the duplicate marker.
   */
  lemma OneRecordPerKernel(env: Env, files: map<string, string>, ks: seq<KernelInfo>)
    ensures var r := Pass(env, files, ks).records;
            |r| == |ks| &&
            forall i :: 0 <= i < |ks| ==>
              && r[i].kname == ks[i].kname
              && r[i].info == ks[i].info
              && (ks[i].ktype == Zero ==> r[i].src == ZeroKernelSrc)
              && (ks[i].ktype == Function && EmittedBefore(ks, i, ks[i].funcName) ==> r[i].src == DuplicateSrc)
  {
    PassPrefix(env, files, ks, 0);
    var r := Pass(env, files, ks).records;
    forall i | 0 <= i < |ks|
      ensures && r[i].kname == ks[i].kname
              && r[i].info == ks[i].info
              && (ks[i].ktype == Zero ==> r[i].src == ZeroKernelSrc)
              && (ks[i].ktype == Function && EmittedBefore(ks, i, ks[i].funcName) ==> r[i].src == DuplicateSrc)
    {
      RecordAt(env, files, ks, i);
      EmittedNames(env, files, ks[..i]);
      EmittedBeforePrefix(ks, i, ks[i].funcName);
    }
  }

  /** Before kernel `i`, its function has been emitted exactly when an earlier non-zero kernel has that function. */
  lemma EmittedAt(env: Env, files: map<string, string>, ks: seq<KernelInfo>, i: nat)
    requires i < |ks|
    ensures ks[i].funcName in Pass(env, files, ks[..i]).knames <==> EmittedBefore(ks, i, ks[i].funcName)
  {
    EmittedNames(env, files, ks[..i]);
    EmittedBeforePrefix(ks, i, ks[i].funcName);
  }

  /** Concatenation of five parts regrouped from the left to the right. */
  lemma RegroupFive(a: string, b: string, c: string, d: string, e: string)
    ensures a + b + c + d + e == a + (b + (c + (d + e)))
  {
  }

  /**
   * The kernel text is the recorded source of every kernel that is the first
   * non-zero kernel of its function, each followed by a blank line, in input
   * order: zero kernels and repeated functions add nothing.
   */
  lemma {:induction false} KernelText(env: Env, files: map<string, string>, ks: seq<KernelInfo>)
    ensures |Pass(env, files, ks).records| == |ks|
    ensures Pass(env, files, ks).code == Body(ks, Pass(env, files, ks).records)
    decreases |ks|
  {
    PassLength(env, files, ks);
    if ks != [] {
      var n := |ks| - 1;
      var prev := ks[..n];
      var st := Pass(env, files, prev);
      var r := Pass(env, files, ks).records;
      KernelText(env, files, prev);
      PassPrefix(env, files, ks, n);
      EmittedAt(env, files, ks, n);
      RecordAt(env, files, ks, n);
      if FirstOfFunction(ks, n) {
        var src := CachedSource(env, st.files, ks[n]);
        assert r[n].src == src;
        assert st.code + src + KernelSeparator == st.code + (src + KernelSeparator);
      } else {
        assert Body(ks, r) == Body(prev, r[..n]) + [];
      }
    }
  }

  /** The unit is the preamble followed by the kernel text `Body` describes. */
  lemma UnitLayout(env: Env, files: map<string, string>, ks: seq<KernelInfo>)
    ensures |Pass(env, files, ks).records| == |ks|
    ensures Unit(env, files, ks) == Preamble(env.ext) + Body(ks, Pass(env, files, ks).records)
  {
    KernelText(env, files, ks);
  }

  /** The cache only gains files: no file the pass starts with is removed or rewritten. */
  lemma CacheOnlyGrows(env: Env, files: map<string, string>, ks: seq<KernelInfo>)
    ensures FilesExtend(Pass(env, files, ks).files, files)
  {
    PassPrefix(env, files, ks, 0);
    assert ks[..0] == [];
  }

  /** Without a cache directory nothing is read from or written to the cache. */
  lemma {:induction false} NoCacheDirectoryNoFiles(env: Env, files: map<string, string>, ks: seq<KernelInfo>)
    requires !env.cacheOn
    ensures Pass(env, files, ks).files == files
    ensures |Pass(env, files, ks).records| == |ks|
    ensures forall i :: 0 <= i < |ks| && FirstOfFunction(ks, i) ==>
              Pass(env, files, ks).records[i].src == Rendered(env, ks[i])
    decreases |ks|
  {
    PassPrefix(env, files, ks, 0);
    if ks != [] {
      NoCacheDirectoryNoFiles(env, files, ks[..|ks| - 1]);
    }
    forall i | 0 <= i < |ks| && FirstOfFunction(ks, i)
      ensures Pass(env, files, ks).records[i].src == Rendered(env, ks[i])
    {
      RecordAt(env, files, ks, i);
      EmittedAt(env, files, ks, i);
    }
  }

  /** With a cache directory, a file already cached for an emitted kernel's name wins over the rendering. */
  lemma CacheHitWins(env: Env, files: map<string, string>, ks: seq<KernelInfo>, i: nat)
    requires env.cacheOn && i < |ks| && FirstOfFunction(ks, i)
    requires CachePath(env.cacheDir, ks[i].kname) in files
    ensures |Pass(env, files, ks).records| == |ks|
    ensures Pass(env, files, ks).records[i].src == files[CachePath(env.cacheDir, ks[i].kname)]
  {
    RecordAt(env, files, ks, i);
    EmittedAt(env, files, ks, i);
    CacheOnlyGrows(env, files, ks[..i]);
  }

  /**
   * With a cache directory, after the pass the cache holds, under every
   * emitted kernel's path, exactly the source the unit got for it: read from
   * the cache on a hit, written to it otherwise.
   */
  lemma EmittedSourceIsCached(env: Env, files: map<string, string>, ks: seq<KernelInfo>, i: nat)
    requires env.cacheOn && i < |ks| && FirstOfFunction(ks, i)
    ensures |Pass(env, files, ks).records| == |ks|
    ensures var path := CachePath(env.cacheDir, ks[i].kname);
            path in Pass(env, files, ks).files &&
            Pass(env, files, ks).files[path] == Pass(env, files, ks).records[i].src
  {
    RecordAt(env, files, ks, i);
    EmittedAt(env, files, ks, i);
    PassSnoc(env, files, ks, i);
    PassPrefix(env, files, ks, i + 1);
  }

  /** The cache paths of the kernels that are the first non-zero kernel of their function. */
  function CachedPaths(dir: string, ks: seq<KernelInfo>): set<string> {
    set j | 0 <= j < |ks| && FirstOfFunction(ks, j) :: CachePath(dir, ks[j].kname)
  }

  /** Whether kernel `j` is the first of its function depends only on the kernels up to it. */
  lemma FirstOfFunctionPrefix(ks: seq<KernelInfo>, m: nat, j: nat)
    requires j < m <= |ks|
    ensures FirstOfFunction(ks[..m], j) <==> FirstOfFunction(ks, j)
  {
    EmittedBeforePrefix(ks, j, ks[j].funcName);
    EmittedBeforePrefix(ks[..m], j, ks[j].funcName);
    assert ks[..m][..j] == ks[..j];
  }

  /** The path of a kernel that is the first of its function is a cached path. */
  lemma InCachedPaths(dir: string, ks: seq<KernelInfo>, j: nat)
    requires j < |ks| && FirstOfFunction(ks, j)
    ensures CachePath(dir, ks[j].kname) in CachedPaths(dir, ks)
  {
  }

  /** The kernels before position `n` keep their paths among the cached paths of all kernels. */
  lemma CachedPathsKept(dir: string, ks: seq<KernelInfo>, n: nat)
    requires n <= |ks|
    ensures CachedPaths(dir, ks[..n]) <= CachedPaths(dir, ks)
  {
    var prev := ks[..n];
    forall p | p in CachedPaths(dir, prev)
      ensures p in CachedPaths(dir, ks)
    {
      var j :| 0 <= j < n && FirstOfFunction(prev, j) && CachePath(dir, prev[j].kname) == p;
      FirstOfFunctionPrefix(ks, n, j);
      assert prev[j] == ks[j];
      InCachedPaths(dir, ks, j);
    }
  }

  /** A cached path of all kernels is one of the kernels before the last, or the last kernel's own. */
  lemma CachedPathFrom(dir: string, ks: seq<KernelInfo>, p: string)
    requires ks != [] && p in CachedPaths(dir, ks)
    ensures p in CachedPaths(dir, ks[..|ks| - 1])
            || (FirstOfFunction(ks, |ks| - 1) && p == CachePath(dir, ks[|ks| - 1].kname))
  {
    var n := |ks| - 1;
    var j :| 0 <= j < |ks| && FirstOfFunction(ks, j) && CachePath(dir, ks[j].kname) == p;
    if j < n {
      var prev := ks[..n];
      FirstOfFunctionPrefix(ks, n, j);
      assert prev[j] == ks[j];
      InCachedPaths(dir, prev, j);
    }
  }

  /** One more kernel adds its path to the cached paths exactly when it is the first of its function. */
  lemma CachedPathsSnoc(dir: string, ks: seq<KernelInfo>)
    requires ks != []
    ensures var n := |ks| - 1;
            CachedPaths(dir, ks)
              == CachedPaths(dir, ks[..n]) + (if FirstOfFunction(ks, n) then {CachePath(dir, ks[n].kname)} else {})
  {
    var n := |ks| - 1;
    CachedPathsKept(dir, ks, n);
    forall p | p in CachedPaths(dir, ks)
      ensures p in CachedPaths(dir, ks[..n]) || (FirstOfFunction(ks, n) && p == CachePath(dir, ks[n].kname))
    {
      CachedPathFrom(dir, ks, p);
    }
    if FirstOfFunction(ks, n) {
      assert CachePath(dir, ks[n].kname) in CachedPaths(dir, ks);
    }
  }

  /**
   * With a cache directory, the pass adds to the cache exactly the paths of
   * the kernels it emits: the files afterwards are those it started with and
   * one per emitted kernel's name.
   */
  lemma {:induction false} CacheKeys(env: Env, files: map<string, string>, ks: seq<KernelInfo>)
    requires env.cacheOn
    ensures Pass(env, files, ks).files.Keys == files.Keys + CachedPaths(env.cacheDir, ks)
    decreases |ks|
  {
    if ks == [] {
      assert CachedPaths(env.cacheDir, ks) == {};
    } else {
      var n := |ks| - 1;
      var prev := ks[..n];
      CacheKeys(env, files, prev);
      CachedPathsSnoc(env.cacheDir, ks);
      EmittedAt(env, files, ks, n);
      assert ks[..n + 1] == ks;
      PassSnoc(env, files, ks, n);
    }
  }

  /**
   * With a cache directory, a kernel whose path is neither cached nor written
   * by an earlier kernel of the pass gets its fresh rendering, and that
   * rendering is what the cache holds for it afterwards.
   */
  lemma CacheMissWritesRendering(env: Env, files: map<string, string>, ks: seq<KernelInfo>, i: nat)
    requires env.cacheOn && i < |ks| && FirstOfFunction(ks, i)
    requires CachePath(env.cacheDir, ks[i].kname) !in files
    requires forall j :: 0 <= j < i && FirstOfFunction(ks, j) ==>
               CachePath(env.cacheDir, ks[j].kname) != CachePath(env.cacheDir, ks[i].kname)
    ensures |Pass(env, files, ks).records| == |ks|
    ensures Pass(env, files, ks).records[i].src == Rendered(env, ks[i])
    ensures var path := CachePath(env.cacheDir, ks[i].kname);
            path in Pass(env, files, ks).files && Pass(env, files, ks).files[path] == Rendered(env, ks[i])
  {
    var path := CachePath(env.cacheDir, ks[i].kname);
    CacheKeys(env, files, ks[..i]);
    forall j | 0 <= j < i && FirstOfFunction(ks[..i], j)
      ensures CachePath(env.cacheDir, ks[..i][j].kname) != path
    {
      FirstOfFunctionPrefix(ks, i, j);
    }
    assert path !in Pass(env, files, ks[..i]).files;
    RecordAt(env, files, ks, i);
    EmittedAt(env, files, ks, i);
    EmittedSourceIsCached(env, files, ks, i);
  }

  /**
   * Rebuilding a kernel of the same name with the cache left by an earlier
   * build gives the earlier source, whatever the new descriptor renders to.
   */
  lemma RebuildReturnsCachedSource(env1: Env, env2: Env, files: map<string, string>,
                                   ks1: seq<KernelInfo>, i: nat, ks2: seq<KernelInfo>, j: nat)
    requires env1.cacheOn && env2.cacheOn && env1.cacheDir == env2.cacheDir
    requires i < |ks1| && FirstOfFunction(ks1, i) && j < |ks2| && FirstOfFunction(ks2, j)
    requires ks1[i].kname == ks2[j].kname
    ensures |Pass(env1, files, ks1).records| == |ks1|
    ensures var first := Pass(env1, files, ks1);
            |Pass(env2, first.files, ks2).records| == |ks2| &&
            Pass(env2, first.files, ks2).records[j].src == first.records[i].src
  {
    var first := Pass(env1, files, ks1);
    EmittedSourceIsCached(env1, files, ks1, i);
    CacheHitWins(env2, first.files, ks2, j);
  }

  /** `p` is not a prefix of `s` when they differ at position `k`. */
  lemma NotPrefix(p: string, s: string, k: nat)
    requires k < |p| && k < |s| && p[k] != s[k]
    ensures !(p <= s)
  {
  }

  /** The lengths and characters that tell the two extension pragmas apart. */
  lemma PragmaMarks()
    ensures |Fp16Pragma| == |Fp64Pragma| > 34
    ensures Fp16Pragma[0] == '#' && Fp64Pragma[0] == '#'
    ensures Fp16Pragma[34] == '1' && Fp64Pragma[34] == '6'
  {
  }

  /** Streaming lines of which the first starts with `t` gives a text that starts with `t`. */
  lemma {:induction false} ConcatStart(lines: seq<string>)
    requires |lines| > 0 && |lines[0]| > 0 && lines[0][0] == 't'
    ensures |Concat(lines)| > 0 && Concat(lines)[0] == 't'
    decreases |lines|
  {
    var init := lines[..|lines| - 1];
    if |init| > 0 {
      ConcatStart(init);
    } else {
      assert Concat(lines) == [] + lines[0];
    }
  }

  /** The subgroup macros start with a newline. */
  lemma SubgroupMark()
    ensures |SubgroupMicrokernels| > 0 && SubgroupMicrokernels[0] == '\n'
  {
  }

  /** The `custom` definitions start with the `typedef`. */
  lemma CustomMark()
    ensures |CustomPreamble| > 0 && CustomPreamble[0] == 't'
  {
    var first := CustomPreambleLine(0);
    assert first == "typedef struct {\n";
    assert CustomPreambleLines()[0] == first;
    ConcatStart(CustomPreambleLines());
  }

  /**
   * An optional marker is read back exactly when it was written, and what
   * follows it is the rest; `k` is where the marker differs from the rest.
   */
  lemma ReadOptional(p: string, present: bool, rest: string, k: nat)
    requires k < |p| && k < |rest| && p[k] != rest[k]
    ensures (p <= Optional(present, p) + rest) == present
    ensures SkipMarker(p, Optional(present, p) + rest) == rest
  {
    if present {
      assert p <= p + rest;
      assert (p + rest)[|p|..] == rest;
    } else {
      assert Optional(present, p) + rest == rest;
      NotPrefix(p, rest, k);
    }
  }

  /** Writing markers told apart by the given characters and reading them back gives the same choice. */
  lemma ReadMarkersRoundTrip(p16: string, p64: string, sg: string, custom: string, x: Extensions, body: string)
    requires |p16| == |p64| > 34 && |sg| > 0 && |custom| > 0
    requires p16[0] == '#' && p64[0] == '#' && p16[34] == '1' && p64[34] == '6'
    requires sg[0] == '\n' && custom[0] == 't'
    ensures ReadMarkers(p16, p64, sg, Optional(x.fp16, p16) + Optional(x.fp64, p64)
                                      + Optional(x.subgroups, sg) + custom + body) == x
  {
    RegroupFive(Optional(x.fp16, p16), Optional(x.fp64, p64), Optional(x.subgroups, sg), custom, body);
    var afterSubgroups := custom + body;
    var afterFp64 := Optional(x.subgroups, sg) + afterSubgroups;
    var afterFp16 := Optional(x.fp64, p64) + afterFp64;
    ReadOptional(sg, x.subgroups, afterSubgroups, 0);
    assert afterFp64[0] in {'\n', 't'};
    ReadOptional(p64, x.fp64, afterFp64, 0);
    if x.fp64 {
      assert afterFp16[34] == '6';
      ReadOptional(p16, x.fp16, afterFp16, 34);
    } else {
      ReadOptional(p16, x.fp16, afterFp16, 0);
    }
  }

  /** The start of a unit shows exactly which extensions the device reported. */
  lemma ExtensionsRoundTrip(x: Extensions, body: string)
    ensures ReportedExtensions(Preamble(x) + body) == x
  {
    PragmaMarks();
    SubgroupMark();
    CustomMark();
    ReadMarkersRoundTrip(Fp16Pragma, Fp64Pragma, SubgroupMicrokernels, CustomPreamble, x, body);
  }
}
