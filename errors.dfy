/** Translation of a driver status code into the failure the wrappers raise
    (`throwOnCLError`): 0 is success, anything else becomes a runtime error
    whose message names the code and keeps its numeric value. */
module Errors {
  import opened Wrappers
  import opened Text

  /** The std::runtime_error the C++ layer throws. One raised by `throwOnCLError` is kept by
      its status code, from which its message is formatted; any other carries its message. */
  datatype Error = ClError(code: int) | Raised(message: string)
  {
    /** `what()`: the message text. */
    function Message(): string
    {
      match this
      case ClError(code) => ErrorMessage(code)
      case Raised(message) => message
    }
  }

  /** The switch of known status codes; every other code is "UNKNOWN". */
  function ErrorName(code: int): (name: string)
    ensures code in KNOWN_CODES ==> IsClName(name)
  {
    match code
    case -4 => "CL_MEM_OBJECT_ALLOCATION_FAILURE"
    case -5 => "CL_OUT_OF_RESOURCES"
    case -6 => "CL_OUT_OF_HOST_MEMORY"
    case -7 => "CL_PROFILING_INFO_NOT_AVAILABLE"
    case -8 => "CL_MEM_COPY_OVERLAP"
    case -11 => "CL_BUILD_PROGRAM_FAILURE"
    case -12 => "CL_MAP_FAILURE"
    case -14 => "CL_EXEC_STATUS_ERROR_FOR_EVENTS_IN_WAIT_LIST"
    case -30 => "CL_INVALID_VALUE"
    case -34 => "CL_INVALID_CONTEXT"
    case -37 => "CL_INVALID_HOST_PTR"
    case -38 => "CL_INVALID_MEM_OBJECT"
    case -40 => "CL_INVALID_IMAGE_SIZE"
    case -43 => "CL_INVALID_BUILD_OPTIONS"
    case -48 => "CL_INVALID_KERNEL"
    case -49 => "CL_INVALID_ARG_INDEX"
    case -50 => "CL_INVALID_ARG_VALUE"
    case -51 => "CL_INVALID_ARG_SIZE"
    case -52 => "CL_INVALID_KERNEL_ARGS"
    case -54 => "CL_INVALID_WORK_GROUP_SIZE"
    case -58 => "CL_INVALID_EVENT"
    case -59 => "CL_INVALID_OPERATION"
    case -60 => "CL_INVALID_GL_OBJECT"
    case _ => "UNKNOWN"
  }

  /** The 23 codes the switch names. */
  const KNOWN_CODES: set<int> :=
    {-4, -5, -6, -7, -8, -11, -12, -14, -30, -34, -37, -38, -40, -43, -48, -49, -50, -51, -52, -54, -58, -59, -60}

  /** Every code the switch does not list, positive ones included, is "UNKNOWN". */
  lemma ErrorNameUnknown(code: int)
    requires code !in KNOWN_CODES
    ensures ErrorName(code) == "UNKNOWN"
  {
  }

  /** A name of the form `CL_...`. */
  predicate IsClName(name: string)
  {
    |name| > 3 && name[0] == 'C' && name[1] == 'L' && name[2] == '_'
  }

  const MESSAGE_PREFIX: string := "OpenCL error: "

  /** The text of `String::format("OpenCL error: %s (%d)", name, err)`. */
  function ErrorMessage(code: int): (message: string)
    ensures |message| > |MESSAGE_PREFIX| && message[..|MESSAGE_PREFIX|] == MESSAGE_PREFIX
    ensures message[|message| - 1] == ')'
  {
    MESSAGE_PREFIX + ErrorName(code) + " (" + IntToString(code) + ")"
  }

  /** `throwOnCLError`: success exactly for 0, otherwise the error of that code. */
  function ThrowOnCLError(err: int): (o: Outcome<Error>)
    ensures o.Pass? <==> err == 0
    ensures o.Fail? ==> o.error == ClError(err)
  {
    if err != 0 then Fail(ClError(err)) else Pass
  }

  /** Reads the name and the code back out of an error message: the text between the
      fixed prefix and the last " (", and the number between that '(' and the final ')'. */
  function ParseErrorMessage(msg: string): Option<(string, int)>
  {
    if |msg| >= |MESSAGE_PREFIX| + 1 && msg[..|MESSAGE_PREFIX|] == MESSAGE_PREFIX && msg[|msg| - 1] == ')' then
      var body := msg[|MESSAGE_PREFIX|..|msg| - 1];
      match LastIndexOf(body, '(')
      case Some(j) =>
        if j >= 1 && body[j - 1] == ' ' then
          match ParseInt(body[j + 1..])
          case Some(code) => Some((body[..j - 1], code))
          case None => None
        else None
      case None => None
    else None
  }

  /** The message of any nonzero code carries that code's name and its exact numeric value. */
  lemma ErrorMessageRoundTrip(code: int)
    ensures ParseErrorMessage(ErrorMessage(code)) == Some((ErrorName(code), code))
  {
    var name := ErrorName(code);
    var num := IntToString(code);
    var msg := ErrorMessage(code);
    assert msg == MESSAGE_PREFIX + (name + " ") + ['('] + num + ")";
    assert msg[..|MESSAGE_PREFIX|] == MESSAGE_PREFIX;
    var body := msg[|MESSAGE_PREFIX|..|msg| - 1];
    assert body == (name + " ") + ['('] + num;
    IntToStringHasNo(code, '(');
    LastIndexOfBefore(name + " ", '(', num);
    var j := |name| + 1;
    assert body[j - 1] == ' ';
    assert body[j + 1..] == num;
    assert body[..j - 1] == name;
    IntToStringRoundTrip(code);
  }

  /** Two codes with the same message are the same code. */
  lemma ErrorMessageInjective(a: int, b: int)
    requires ErrorMessage(a) == ErrorMessage(b)
    ensures a == b
  {
    ErrorMessageRoundTrip(a);
    ErrorMessageRoundTrip(b);
  }

  /** The error raised for a nonzero code reads "OpenCL error: NAME (code)": the fixed
      prefix, then the code's name and its exact numeric value. */
  lemma ThrowOnCLErrorMessage(err: int)
    requires err != 0
    ensures var msg := ThrowOnCLError(err).error.Message();
      && msg[..|MESSAGE_PREFIX|] == MESSAGE_PREFIX
      && ParseErrorMessage(msg) == Some((ErrorName(err), err))
  {
    ErrorMessageRoundTrip(err);
  }
}
