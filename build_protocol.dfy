/**
 * The completion protocol of an OpenCL build in flight (`Build::Start`,
 * `Build::OnBuildComplete`, `Build::OnError`).
 *
 * A started build is parked in a map of pending callbacks under a fresh
 * handle; the driver calls the completion handler with that handle, and the
 * handler takes the build out of the map before it settles the build's
 * promise, so a later call with the same handle does nothing.  When the
 * driver refuses the build request, the handler is called at once.  The
 * promise is a three-state cell whose setters demand that it is still unset,
 * so every path below is proved to settle it at most once.
 *
 * The driver is an oracle: what it answers for a program is fixed in
 * advance, and the requests it receives are logged.
 */
module BuildProtocol {
  import opened Wrappers
  import opened KernelUnit

  /** `CL_SUCCESS`, the error code of a call that worked. */
  const ClSuccess: int := 0

  /** `CL_BUILD_SUCCESS`, the build status of a program that compiled. */
  const ClBuildSuccess: int := 0

  /** The compiler options every build is submitted with. */
  const BuildOptions: string := "-cl-fast-relaxed-math -cl-mad-enable -cl-unsafe-math-optimizations"

  /** A program object the driver created, identified by its creation order, with the source it was given. */
  datatype Program = Program(id: nat, src: string)

  /**
   * What a build delivers: the device it is for, its program (none for an
   * empty kernel list), the kernel descriptors and one record per kernel.
   */
  datatype Library = Library(deviceId: string, program: Option<Program>,
                             kernels: seq<KernelInfo>, kernelIds: seq<KernelRecord>)

  /** The `proto::BuildInfo` of a build: device, unit source, and what the failure path adds. */
  datatype BuildInfo = BuildInfo(deviceId: string, src: string, status: Option<int>, log: Option<string>)

  /** Why a build failed: the status query itself failed with this error code, or the program did not compile. */
  datatype BuildError = StatusUnavailable(code: int) | CompileFailed

  /** The state of a promise: not yet settled, holding the library, or holding an exception. */
  datatype Outcome = Unset | Value(lib: Library) | Failed(error: BuildError)

  /**
   * The driver's answers to the three program-build-info queries made after a
   * build: the build status, the size of the build log and the log text it
   * writes into a buffer of that size.  A failure carries a non-zero error code.
   */
  datatype BuildAnswers = BuildAnswers(status: Result<int, int>, logSize: Result<nat, int>, logFill: Result<string, int>)

  /** A build request the driver received. */
  datatype Submission = Submission(program: Program, deviceId: string, options: string, handle: nat)

  /** How a completion settles a build: the promise's outcome, the build info afterwards, and the metadata attached. */
  datatype Settlement = Settlement(outcome: Outcome, binfo: BuildInfo, metadata: seq<BuildInfo>)

  /** A buffer of `len` NUL characters after the driver has written `text` into it. */
  function FillBuffer(len: nat, text: string): (buffer: string)
    ensures |buffer| == len
    ensures forall i :: 0 <= i < len ==> buffer[i] == if i < |text| then text[i] else '\0'
  {
    if |text| >= len then text[..len] else text + seq(len - |text|, _ => '\0')
  }

  /** The build log, when both the size query and the fill query succeed. */
  function LogQuery(a: BuildAnswers): (log: Option<string>)
    ensures log.Some? <==> a.logSize.Success? && a.logFill.Success?
    ensures log.Some? ==> |log.value| == a.logSize.value
    ensures log.Some? ==> forall i :: 0 <= i < |log.value| ==>
              log.value[i] == if i < |a.logFill.value| then a.logFill.value[i] else '\0'
  {
    match a.logSize
    case Failure(_) => None
    case Success(len) =>
      match a.logFill
      case Failure(_) => None
      case Success(text) => Some(FillBuffer(len, text))
  }

  /** The build info after `OnError`: the log is stored when it could be read, and nothing else changes. */
  function ErrorInfo(a: BuildAnswers, binfo: BuildInfo): (b: BuildInfo)
    ensures b.deviceId == binfo.deviceId && b.src == binfo.src && b.status == binfo.status
    ensures b.log != binfo.log ==> a.logSize.Success? && a.logFill.Success?
    ensures a.logSize.Success? && a.logFill.Success? ==> b.log == LogQuery(a)
  {
    match LogQuery(a)
    case None => binfo
    case Some(log) => binfo.(log := Some(log))
  }

  /** What the completion handler does for a build, given the driver's answers. */
  function Settle(a: BuildAnswers, lib: Library, binfo: BuildInfo): (s: Settlement)
    ensures !s.outcome.Unset?
    ensures s.outcome.Value? <==> a.status == Success(ClBuildSuccess)
    ensures s.outcome.Value? ==> s.outcome.lib == lib && s.binfo == binfo && s.metadata == [binfo]
    ensures s.outcome.Failed? ==> s.metadata == []
    ensures a.status.Failure? ==> s.outcome == Failed(StatusUnavailable(a.status.error)) && s.binfo == binfo
    ensures a.status.Success? && a.status.value != ClBuildSuccess ==>
              s.outcome == Failed(CompileFailed) && s.binfo == ErrorInfo(a, binfo.(status := Some(a.status.value)))
  {
    match a.status
    case Failure(code) => Settlement(Failed(StatusUnavailable(code)), binfo, [])
    case Success(status) =>
      if status == ClBuildSuccess then Settlement(Value(lib), binfo, [binfo])
      else Settlement(Failed(CompileFailed), ErrorInfo(a, binfo.(status := Some(status))), [])
  }

  /** A settled build that failed stores its status, and a log only when both log queries succeeded. */
  lemma FailedBuildKeepsStatus(a: BuildAnswers, lib: Library, binfo: BuildInfo)
    requires a.status.Success? && a.status.value != ClBuildSuccess
    ensures Settle(a, lib, binfo).binfo.status == Some(a.status.value)
    ensures Settle(a, lib, binfo).binfo.log == if LogQuery(a).Some? then LogQuery(a) else binfo.log
    ensures Settle(a, lib, binfo).metadata == []
  {
    var b := binfo.(status := Some(a.status.value));
    assert Settle(a, lib, binfo).binfo == ErrorInfo(a, b);
  }

  /** A log written to fit its buffer exactly comes back unchanged. */
  lemma FullLogRoundTrip(a: BuildAnswers)
    requires a.logSize.Success? && a.logFill.Success?
    requires |a.logFill.value| == a.logSize.value
    ensures LogQuery(a) == Some(a.logFill.value)
  {
    var log := LogQuery(a).value;
    assert log == a.logFill.value by {
      assert forall i :: 0 <= i < |log| ==> log[i] == a.logFill.value[i];
    }
  }

  /** A promise (a future's shared state); a setter on a promise already settled is a contract violation. */
  class Promise {
    var state: Outcome

    /** A promise not yet settled. */
    constructor ()
      ensures state == Unset
    {
      state := Unset;
    }

    /** `boost::make_ready_future`: a promise that already holds `lib`. */
    constructor Ready(lib: Library)
      ensures state == Value(lib)
    {
      state := Value(lib);
    }

    method SetValue(lib: Library)
      requires state.Unset?
      modifies this
      ensures state == Value(lib)
    {
      state := Value(lib);
    }

    method SetException(e: BuildError)
      requires state.Unset?
      modifies this
      ensures state == Failed(e)
    {
      state := Failed(e);
    }
  }

  /**
   * The OpenCL driver: which unit texts it refuses (with the error text),
   * the error code of each build request, and its answers about each built
   * program; it logs the programs it creates and the builds it is asked for.
   */
  class Driver {
    const rejects: string -> Option<string>
    const submitError: Program -> int
    const answers: Program -> BuildAnswers
    var created: seq<Program>
    var submissions: seq<Submission>

    constructor (rejects: string -> Option<string>, submitError: Program -> int, answers: Program -> BuildAnswers)
      ensures this.rejects == rejects && this.submitError == submitError && this.answers == answers
      ensures created == [] && submissions == []
    {
      this.rejects := rejects;
      this.submitError := submitError;
      this.answers := answers;
      created := [];
      submissions := [];
    }

    /** `clCreateProgramWithSource`: a new program for `src`, or the error text when the driver refuses it. */
    method CreateProgramWithSource(src: string) returns (r: Result<Program, string>)
      modifies this`created
      ensures rejects(src).Some? ==> r == Failure(rejects(src).value) && created == old(created)
      ensures rejects(src).None? ==> r == Success(Program(|old(created)|, src)) && created == old(created) + [r.value]
    {
      match rejects(src)
      case Some(err) =>
        r := Failure(err);
      case None =>
        r := Success(Program(|created|, src));
        created := created + [r.value];
    }

    /** `clBuildProgram`: the build request is logged; the result is the driver's error code for it. */
    method BuildProgram(program: Program, deviceId: string, options: string, handle: nat) returns (err: int)
      modifies this`submissions
      ensures err == submitError(program)
      ensures submissions == old(submissions) + [Submission(program, deviceId, options, handle)]
    {
      submissions := submissions + [Submission(program, deviceId, options, handle)];
      err := submitError(program);
    }
  }

  /** A build in flight: its library, its promise, its build info and the metadata attached to its activity. */
  class Build {
    const program: Program
    const library: Library
    const prom: Promise
    var binfo: BuildInfo
    var metadata: seq<BuildInfo>

    constructor (deviceId: string, program: Program, kernels: seq<KernelInfo>, binfo: BuildInfo,
                 kernelIds: seq<KernelRecord>)
      ensures this.program == program && library == Library(deviceId, Some(program), kernels, kernelIds)
      ensures fresh(prom) && prom.state == Unset
      ensures this.binfo == binfo && metadata == []
    {
      this.program := program;
      library := Library(deviceId, Some(program), kernels, kernelIds);
      prom := new Promise();
      this.binfo := binfo;
      metadata := [];
    }

    /** `Build::OnError`: store the build log when it can be read, then fail, always. */
    method OnError(driver: Driver) returns (e: BuildError)
      modifies this`binfo
      ensures binfo == ErrorInfo(driver.answers(program), old(binfo))
      ensures e == CompileFailed
    {
      var a := driver.answers(program);
      match a.logSize {
        case Failure(_) =>
        case Success(len) =>
          match a.logFill {
            case Failure(_) =>
            case Success(text) =>
              var buffer := FillBuffer(len, text);
              binfo := binfo.(log := Some(buffer));
          }
      }
      e := CompileFailed;
    }
  }

  /** The pending callbacks: builds waiting for their completion, by handle. */
  class PendingCallbackMap {
    var records: map<nat, Build>
    var next: nat

    /** Handles are below the counter, and every waiting build has its own promise, not yet settled. */
    ghost predicate Valid()
      reads this, set h | h in records :: records[h].prom
    {
      && (forall h :: h in records ==> h < next)
      && (forall h :: h in records ==> records[h].prom.state.Unset?)
      && (forall h, k :: h in records && k in records && records[h].prom == records[k].prom ==> h == k)
    }

    constructor ()
      ensures Valid() && records == map[] && next == 0
    {
      records := map[];
      next := 0;
    }

    /** Park `b` under a handle never handed out before. */
    method Acquire(b: Build) returns (h: nat)
      requires Valid() && b.prom.state.Unset?
      requires forall k :: k in records ==> records[k].prom != b.prom
      modifies this
      ensures Valid()
      ensures h == old(next) && h !in old(records)
      ensures records == old(records)[h := b] && next == old(next) + 1
    {
      h := next;
      records := records[h := b];
      next := next + 1;
    }

    /** Take out the build parked under `h`; none when it was already taken out. */
    method Release(h: nat) returns (b: Option<Build>)
      requires Valid()
      modifies this
      ensures Valid()
      ensures b == if h in old(records) then Some(old(records)[h]) else None
      ensures records == old(records) - {h} && next == old(next)
    {
      if h in records {
        b := Some(records[h]);
        records := records - {h};
      } else {
        b := None;
      }
    }
  }

  /**
   * `Build::OnBuildComplete`: release the handle; a handle already released
   * is ignored.  Otherwise the build's promise is settled, once, as `Settle`
   * says.
   */
  method OnBuildComplete(pending: PendingCallbackMap, driver: Driver, h: nat)
    requires pending.Valid()
    modifies pending
    modifies if h in pending.records then {pending.records[h]} else {}
    modifies if h in pending.records then {pending.records[h].prom} else {}
    ensures pending.Valid()
    ensures pending.records == old(pending.records) - {h} && pending.next == old(pending.next)
    ensures h in old(pending.records) ==>
              var b := old(pending.records)[h];
              var s := Settle(driver.answers(b.program), b.library, old(b.binfo));
              b.prom.state == s.outcome && b.binfo == s.binfo && b.metadata == old(b.metadata) + s.metadata
  {
    var released := pending.Release(h);
    if released.None? {
      return;
    }
    var b := released.value;
    var a := driver.answers(b.program);
    match a.status {
      case Failure(code) =>
        b.prom.SetException(StatusUnavailable(code));
      case Success(status) =>
        if status == ClBuildSuccess {
          b.prom.SetValue(b.library);
          b.metadata := b.metadata + [b.binfo];
        } else {
          b.binfo := b.binfo.(status := Some(status));
          var e := b.OnError(driver);
          b.prom.SetException(e);
        }
    }
  }

  /**
   * `Build::Start`: park a new build under a fresh handle and ask the driver
   * to build its program; when the driver refuses, complete it at once.
   */
  method Start(pending: PendingCallbackMap, driver: Driver, deviceId: string, program: Program,
               kernels: seq<KernelInfo>, binfo: BuildInfo, kernelIds: seq<KernelRecord>)
    returns (result: Promise, build: Build, handle: nat)
    requires pending.Valid()
    modifies pending, driver`submissions
    ensures pending.Valid()
    ensures fresh(build) && fresh(result) && result == build.prom
    ensures build.program == program && build.library == Library(deviceId, Some(program), kernels, kernelIds)
    ensures handle == old(pending.next) && pending.next == old(pending.next) + 1
    ensures driver.submissions == old(driver.submissions) + [Submission(program, deviceId, BuildOptions, handle)]
    ensures driver.submitError(program) == ClSuccess ==>
              && pending.records == old(pending.records)[handle := build]
              && result.state == Unset && build.binfo == binfo && build.metadata == []
    ensures driver.submitError(program) != ClSuccess ==>
              var s := Settle(driver.answers(program), build.library, binfo);
              && pending.records == old(pending.records)
              && result.state == s.outcome && build.binfo == s.binfo && build.metadata == s.metadata
  {
    build := new Build(deviceId, program, kernels, binfo, kernelIds);
    result := build.prom;
    handle := pending.Acquire(build);
    var err := driver.BuildProgram(program, deviceId, BuildOptions, handle);
    if err != ClSuccess {
      OnBuildComplete(pending, driver, handle);
    }
  }

  /**
   * A build started and then completed by the driver any positive number of
   * times: the first completion settles the promise as `Settle` says, and
   * the later ones change nothing.
   */
  method StartAndComplete(pending: PendingCallbackMap, driver: Driver, deviceId: string, program: Program,
                          kernels: seq<KernelInfo>, binfo: BuildInfo, kernelIds: seq<KernelRecord>,
                          callbacks: nat)
    returns (result: Promise)
    requires pending.Valid() && callbacks > 0
    modifies pending, driver`submissions
    ensures pending.Valid() && pending.records == old(pending.records)
    ensures result.state == Settle(driver.answers(program), Library(deviceId, Some(program), kernels, kernelIds), binfo).outcome
  {
    var build, handle;
    result, build, handle := Start(pending, driver, deviceId, program, kernels, binfo, kernelIds);
    var settled := Settle(driver.answers(program), build.library, binfo).outcome;
    var n := 0;
    if driver.submitError(program) == ClSuccess {
      OnBuildComplete(pending, driver, handle);
      n := 1;
    }
    while n < callbacks
      invariant n <= callbacks
      invariant pending.Valid() && pending.records == old(pending.records)
      invariant fresh(result) && handle !in pending.records
      invariant result.state == settled
    {
      OnBuildComplete(pending, driver, handle);
      n := n + 1;
    }
  }
}
