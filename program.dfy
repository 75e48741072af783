/** `Program`: created from source text on a context and built for the context's
    device with the caller's options followed by a fixed set of standard options.
    A failed build raises with the driver's build log. */
module Programs {
  import opened ClTypes
  import opened Wrappers
  import opened Errors
  import opened Text
  import opened ClApi
  import opened Kernels

  /** The standard build options, in the order they are appended. */
  const STANDARD_FLAGS: seq<string> := [
    "-cl-single-precision-constant",
    "-cl-fast-relaxed-math",
    "-cl-mad-enable",
    "-cl-no-signed-zeros",
    "-cl-denorms-are-zero",
    "-cl-std=CL2.0"
  ]

  /** The `standardOptions` string: written as adjacent literals, one per standard flag,
      each ending in a space. */
  const STANDARD_OPTIONS: string := WithTrailingSpaces(STANDARD_FLAGS)

  /** Each word followed by one space, in order. */
  function WithTrailingSpaces(ws: seq<string>): string
  {
    if ws == [] then "" else ws[0] + " " + WithTrailingSpaces(ws[1..])
  }

  /** The option string handed to the build. */
  function BuildOptions(options: seq<string>): string
  {
    WithTrailingSpaces(options) + STANDARD_OPTIONS
  }

  lemma {:induction false} WithTrailingSpacesAppend(a: seq<string>, b: seq<string>)
    ensures WithTrailingSpaces(a + b) == WithTrailingSpaces(a) + WithTrailingSpaces(b)
    decreases |a|
  {
    if a != [] {
      assert (a + b)[1..] == a[1..] + b;
      WithTrailingSpacesAppend(a[1..], b);
    } else {
      assert a + b == b;
    }
  }

  /** Trailing spaces are the separators of the words followed by one empty word. */
  lemma {:induction false} WithTrailingSpacesIsJoin(ws: seq<string>)
    ensures WithTrailingSpaces(ws) == Join(ws + [""], ' ')
    decreases |ws|
  {
    if ws != [] {
      assert (ws + [""])[1..] == ws[1..] + [""];
      WithTrailingSpacesIsJoin(ws[1..]);
    }
  }

  lemma StandardFlagsHaveNoSpace(k: nat)
    requires k < |STANDARD_FLAGS|
    ensures ' ' !in STANDARD_FLAGS[k]
  {
  }

  /** The option string cut at spaces gives back the caller's options (none dropped, none
      merged, none filtered against the standard ones), then every standard flag, then the
      empty field after the final space. */
  lemma BuildOptionsSplit(options: seq<string>)
    requires forall k :: 0 <= k < |options| ==> ' ' !in options[k]
    ensures Split(BuildOptions(options), ' ') == options + STANDARD_FLAGS + [""]
  {
    var ws := options + STANDARD_FLAGS;
    WithTrailingSpacesAppend(options, STANDARD_FLAGS);
    WithTrailingSpacesIsJoin(ws);
    forall k | 0 <= k < |ws + [""]| ensures ' ' !in (ws + [""])[k] {
      if |options| <= k < |ws| {
        StandardFlagsHaveNoSpace(k - |options|);
      }
    }
    SplitJoin(ws + [""], ' ');
  }

  /** The loop of `load` that appends each option and a space, then the standard options. */
  method ConcatOptions(options: seq<string>) returns (s: string)
    ensures s == BuildOptions(options)
  {
    s := "";
    for i := 0 to |options|
      invariant s == WithTrailingSpaces(options[..i])
    {
      WithTrailingSpacesAppend(options[..i], [options[i]]);
      assert options[..i + 1] == options[..i] + [options[i]];
      s := s + (options[i] + " ");
    }
    assert options[..|options|] == options;
    s := s + STANDARD_OPTIONS;
  }

  /** `char buildLog[10240]` */
  const BUILD_LOG_CAPACITY: nat := 10240

  /** The zero-initialised log buffer after the driver wrote `written` into it. */
  function LogBuffer(written: string): (b: string)
    ensures |b| == BUILD_LOG_CAPACITY
    ensures |written| <= BUILD_LOG_CAPACITY ==> b[..|written|] == written
  {
    if |written| >= BUILD_LOG_CAPACITY then written[..BUILD_LOG_CAPACITY]
    else written + seq(BUILD_LOG_CAPACITY - |written|, _ => '\0')
  }

  /** `string msg{buildLog, sizeGiven}`: the first sizeGiven characters of the buffer
      (at most the whole buffer). */
  function BuildLogMessage(written: string, sizeGiven: u64): (msg: string)
    ensures |msg| <= BUILD_LOG_CAPACITY
    ensures sizeGiven <= |written| <= BUILD_LOG_CAPACITY ==> msg == written[..sizeGiven]
  {
    var n := if sizeGiven <= BUILD_LOG_CAPACITY then sizeGiven else BUILD_LOG_CAPACITY;
    LogBuffer(written)[..n]
  }

  const COMPILATION_FAILED: string := "Compilation failed: "

  /** The error a failed build raises: `std::runtime_error` is built from the `c_str()` of
      "Compilation failed: " + log, so it keeps the log only up to its first NUL. */
  function CompilationFailed(log: string): (e: Error)
    ensures |COMPILATION_FAILED| <= |e.Message()| <= |COMPILATION_FAILED| + |log|
    ensures e.Message()[..|COMPILATION_FAILED|] == COMPILATION_FAILED
    ensures '\0' !in e.Message()
    ensures e.Message()[|COMPILATION_FAILED|..] <= log
    ensures |e.Message()| < |COMPILATION_FAILED| + |log| ==> log[|e.Message()| - |COMPILATION_FAILED|] == '\0'
  {
    Raised(COMPILATION_FAILED + CString(log))
  }

  /** A driver that writes a NUL-terminated log and reports its size, NUL included, makes the
      build raise "Compilation failed: " followed by the log without its NUL. */
  lemma CompilationFailedTerminated(text: string)
    requires '\0' !in text && |text| < BUILD_LOG_CAPACITY
    ensures CompilationFailed(BuildLogMessage(text + ['\0'], |text| + 1)).Message() == COMPILATION_FAILED + text
  {
    assert BuildLogMessage(text + ['\0'], |text| + 1) == text + ['\0'] + [];
    CStringOf(text, []);
  }

  /** The device is kept by its handle, the only member of it the program reads. */
  datatype Program = Program(contextId: Handle, id: Handle, filename: string, deviceId: Handle)
  {
    /** `getKernel(name)`: a kernel of this program under that name. */
    method GetKernel(drv: Driver, funcName: string) returns (r: Result<Kernel, Error>)
      modifies drv
      ensures Appended(drv, CreateKernel(id, funcName))
      ensures var reply := drv.oracle(old(drv.log), CreateKernel(id, funcName));
        r == OnSuccess(reply, Kernel(id, deviceId, reply.handle, funcName))
    {
      r := OpenKernel(drv, id, deviceId, funcName);
    }

    /** The destructor: one release of the program handle. */
    method Destroy(drv: Driver)
      modifies drv
      ensures Appended(drv, ReleaseProgram(id))
    {
      var _ := drv.Issue(ReleaseProgram(id));
    }
  }

  /** The constructor with its `load`: create the program from `source` (the text of the
      file), raise if that fails; build it for exactly the one device with the option
      string; on a failed build read the log and raise "Compilation failed: " + log, the log
      cut at its first NUL. */
  twostate predicate Loaded(drv: Driver, contextId: Handle, deviceId: Handle, filename: string, source: string,
                            options: seq<string>, new r: Result<Program, Error>)
    reads drv
  {
    var c1 := CreateProgramWithSource(contextId, source);
    var reply1 := drv.oracle(old(drv.log), c1);
    var log1 := old(drv.log) + [Exchange(c1, reply1)];
    var c2 := BuildProgram(reply1.handle, [deviceId], BuildOptions(options));
    var reply2 := drv.oracle(log1, c2);
    var log2 := log1 + [Exchange(c2, reply2)];
    var c3 := GetProgramBuildLog(reply1.handle, deviceId, BUILD_LOG_CAPACITY);
    var reply3 := drv.oracle(log2, c3);
    if reply1.status != 0 then
      drv.log == log1 && r == Failure(ClError(reply1.status))
    else if reply2.status != 0 then
      drv.log == log2 + [Exchange(c3, reply3)] && r == Failure(CompilationFailed(BuildLogMessage(reply3.text, reply3.value)))
    else
      drv.log == log2 && r == Success(Program(contextId, reply1.handle, filename, deviceId))
  }

  method Load(drv: Driver, contextId: Handle, deviceId: Handle, filename: string, source: string,
              options: seq<string>) returns (r: Result<Program, Error>)
    modifies drv
    ensures Loaded(drv, contextId, deviceId, filename, source, options, r)
  {
    var created :- drv.Check(CreateProgramWithSource(contextId, source));
    var id := created.handle;

    var optionsStr := ConcatOptions(options);

    var built := drv.Issue(BuildProgram(id, [deviceId], optionsStr));
    if built.status != 0 {
      var log := drv.Issue(GetProgramBuildLog(id, deviceId, BUILD_LOG_CAPACITY));
      var msg := BuildLogMessage(log.text, log.value);
      return Failure(CompilationFailed(msg));
    }
    r := Success(Program(contextId, id, filename, deviceId));
  }
}
