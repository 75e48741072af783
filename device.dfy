/** `Device`: a device handle and the capabilities read from the driver when the
    wrapper is built, one `clGetDeviceInfo` call per capability in a fixed order,
    each passed through `throwOnCLError`. */
module Devices {
  import opened ClTypes
  import opened Wrappers
  import opened Errors
  import opened Text
  import opened ClApi

  // ---------------------------------------------------------------------------
  // Vendor classification

  datatype VendorId = Unknown | Nvidia | Ati | Intel

  /** The vendor named by the CL_DEVICE_VENDOR string: the tokens are looked for in a fixed
      priority order, case-sensitively, anywhere in the string. */
  function ClassifyVendor(vendor: string): (v: VendorId)
    ensures Contains(vendor, "NVIDIA") ==> v == Nvidia
    ensures (!Contains(vendor, "NVIDIA") && (Contains(vendor, "ATI") || Contains(vendor, "Advanced Micro Devices")))
              ==> v == Ati
    ensures (!Contains(vendor, "NVIDIA") && !Contains(vendor, "ATI") && !Contains(vendor, "Advanced Micro Devices")
              && Contains(vendor, "Intel")) ==> v == Intel
    ensures v == Unknown <==>
              (!Contains(vendor, "NVIDIA") && !Contains(vendor, "ATI")
              && !Contains(vendor, "Advanced Micro Devices") && !Contains(vendor, "Intel"))
  {
    if Contains(vendor, "NVIDIA") then Nvidia
    else if Contains(vendor, "ATI") || Contains(vendor, "Advanced Micro Devices") then Ati
    else if Contains(vendor, "Intel") then Intel
    else Unknown
  }

  /** A vendor is reported only when its token occurs in the string. */
  lemma VendorHasToken(vendor: string)
    ensures ClassifyVendor(vendor) == Nvidia ==> Contains(vendor, "NVIDIA")
    ensures ClassifyVendor(vendor) == Ati ==> Contains(vendor, "ATI") || Contains(vendor, "Advanced Micro Devices")
    ensures ClassifyVendor(vendor) == Intel ==> Contains(vendor, "Intel")
  {
  }

  /** Any string with the token at some position. */
  lemma ContainsWithin(pre: string, t: string, post: string)
    ensures Contains(pre + t + post, t)
  {
    var s := pre + t + post;
    assert s[|pre|..|pre| + |t|] == t;
    assert OccursAt(s, t, |pre|);
    ContainsAt(s, t);
  }

  /** The NVIDIA token wins over every other, wherever it occurs. */
  lemma NvidiaFirst(pre: string, post: string)
    ensures ClassifyVendor(pre + "NVIDIA" + post) == Nvidia
  {
    ContainsWithin(pre, "NVIDIA", post);
  }

  /** A string without the first character of a token does not contain the token. */
  lemma {:induction false} MissingFirstChar(s: string, t: string)
    requires |t| > 0 && t[0] !in s
    ensures !Contains(s, t)
    decreases |s|
  {
    if |t| <= |s| {
      assert s[..|t|][0] == s[0];
      MissingFirstChar(s[1..], t);
    }
  }

  /** Matching is case-sensitive: a vendor string holding "Intel" and no upper-case 'N' or 'A' is
      Intel's, whatever lower-case "ati" (as in "Corporation") it holds. */
  lemma IntelWithoutCapitals(s: string)
    requires Contains(s, "Intel") && 'N' !in s && 'A' !in s
    ensures ClassifyVendor(s) == Intel
  {
    MissingFirstChar(s, "NVIDIA");
    MissingFirstChar(s, "ATI");
    MissingFirstChar(s, "Advanced Micro Devices");
  }

  /** Matching is case-sensitive: a vendor string without the capitals 'N', 'A' and 'I' that
      begin the tokens (the tokens written in lower case, for one) names no vendor. */
  lemma LowerCaseIsUnknown(s: string)
    requires 'N' !in s && 'A' !in s && 'I' !in s
    ensures ClassifyVendor(s) == Unknown
  {
    MissingFirstChar(s, "NVIDIA");
    MissingFirstChar(s, "ATI");
    MissingFirstChar(s, "Advanced Micro Devices");
    MissingFirstChar(s, "Intel");
  }

  // ---------------------------------------------------------------------------
  // The capability queries

  /** The capability read at step k of the query. */
  function QueryParam(k: nat): DeviceParam
    requires k < QUERY_STEPS
  {
    match k
    case 0 => DeviceVendor
    case 1 => DeviceType
    case 2 => MaxComputeUnits
    case 3 => MaxWorkItemDimensions
    case 4 => MaxWorkGroupSize
    case 5 => MaxWorkItemSizes
    case 6 => MaxClockFrequency
    case 7 => AddressBits
    case 8 => MaxMemAllocSize
    case 9 => GlobalMemSize
    case 10 => LocalMemSize
    case 11 => MaxConstantBufferSize
    case 12 => DeviceAvailable
    case 13 => CompilerAvailable
    case 14 => EndianLittle
    case 15 => ErrorCorrectionSupport
    case 16 => DeviceExtensions
    case 17 => DeviceName
    case 18 => DeviceVersion
    case 19 => DriverVersion
    case 20 => QueueProperties
    case 21 => ExecutionCapabilities
    case 22 => ProfilingTimerResolution
    case 23 => MaxConstantArgs
    case _ => SingleFpConfig
  }

  const QUERY_STEPS: nat := 25

  /** `char buf[1024]`, the buffer the string capabilities are read into. */
  const INFO_BUFFER_SIZE: nat := 1024

  /** The position of the work-item-sizes query, whose byte size depends on an earlier answer. */
  const SIZES_STEP: nat := 5

  /** The position of the work-item-dimensions query. */
  const DIMS_STEP: nat := 3

  /** The byte size passed for a capability: the size of the field it is read into. */
  function InfoSize(p: DeviceParam): (n: u64)
    ensures n == SIZEOF_UINT || n == SIZEOF_ULONG || n == INFO_BUFFER_SIZE
  {
    match p
    case DeviceVendor | DeviceExtensions | DeviceName | DeviceVersion | DriverVersion => INFO_BUFFER_SIZE
    case DeviceType | MaxWorkGroupSize | MaxMemAllocSize | GlobalMemSize | LocalMemSize
       | MaxConstantBufferSize | QueueProperties | ExecutionCapabilities
       | ProfilingTimerResolution | SingleFpConfig => SIZEOF_ULONG
    case _ => SIZEOF_UINT
  }

  /** The k-th query call; the work-item sizes are read into `dims` ulongs. */
  function QueryCall(id: Handle, k: nat, dims: u32): (c: Call)
    requires k < QUERY_STEPS
    ensures c.GetDeviceInfo? && c.device == id && c.deviceParam == QueryParam(k)
    ensures k == SIZES_STEP ==> c.size == dims * SIZEOF_ULONG
    ensures k != SIZES_STEP ==> c.size == InfoSize(QueryParam(k))
  {
    GetDeviceInfo(id, QueryParam(k), if k == SIZES_STEP then dims * SIZEOF_ULONG else InfoSize(QueryParam(k)))
  }

  /** The next call of the query of device `id`, given the exchanges `done` of the query so far:
      it asks for capability |done|, and the work-item sizes are read into as many ulongs as the
      dimension count answered at step 3 says. */
  function NextCall(id: Handle, done: seq<Exchange>): (c: Call)
    requires |done| < QUERY_STEPS
    ensures c.GetDeviceInfo? && c.device == id && c.deviceParam == QueryParam(|done|)
  {
    QueryCall(id, |done|, if |done| > DIMS_STEP then ToU32(done[DIMS_STEP].reply.value) else 0)
  }

  /** The exchanges after position `base` of `log` are a run of the query of device `id`:
      each is the next call of the query, answered by the driver given the whole log before
      it, and each one but the first follows a call that succeeded; there are at most 25. */
  ghost predicate Ran(oracle: (seq<Exchange>, Call) -> Reply, log: seq<Exchange>, base: nat, id: Handle)
    decreases |log|
  {
    && base <= |log| <= base + QUERY_STEPS
    && (|log| == base ||
         var prev := log[..|log| - 1];
         var c := NextCall(id, prev[base..]);
         && Ran(oracle, prev, base, id)
         && (|prev| == base || prev[|prev| - 1].reply.status == 0)
         && log[|log| - 1] == Exchange(c, oracle(prev, c)))
  }

  /** The first k steps of the query ran after position `base` of `log`, and all succeeded. */
  ghost predicate Progress(oracle: (seq<Exchange>, Call) -> Reply, log: seq<Exchange>, base: nat, id: Handle, k: nat)
  {
    && |log| == base + k
    && Ran(oracle, log, base, id)
    && (k == 0 || log[|log| - 1].reply.status == 0)
  }

  /** The whole query of device `id` took the driver's log from `before` to `after`: the calls
      of the query in order, up to and including the first one that failed, or all 25 when none
      did. */
  ghost predicate Queried(oracle: (seq<Exchange>, Call) -> Reply, before: seq<Exchange>, after: seq<Exchange>, id: Handle)
  {
    && |before| < |after|
    && after[..|before|] == before
    && Ran(oracle, after, |before|, id)
    && (|after| < |before| + QUERY_STEPS ==> after[|after| - 1].reply.status != 0)
  }

  /** A run cut short is a run. */
  lemma {:induction false} RanPrefix(oracle: (seq<Exchange>, Call) -> Reply, log: seq<Exchange>, base: nat, id: Handle, m: nat)
    requires Ran(oracle, log, base, id) && base <= m <= |log|
    ensures Ran(oracle, log[..m], base, id)
    decreases |log|
  {
    if m < |log| {
      var prev := log[..|log| - 1];
      RanPrefix(oracle, prev, base, id, m);
      assert prev[..m] == log[..m];
    } else {
      assert log[..m] == log;
    }
  }

  /** What the j-th exchange of a run is: the query call for capability j - base of `id`,
      answered by the driver given the log before it; every exchange but the last succeeded. */
  lemma {:induction false} RanStep(oracle: (seq<Exchange>, Call) -> Reply, log: seq<Exchange>, base: nat, id: Handle, j: nat)
    requires Ran(oracle, log, base, id) && base <= j < |log|
    ensures j - base < QUERY_STEPS
    ensures log[j].call == NextCall(id, log[base..j])
    ensures log[j].reply == oracle(log[..j], log[j].call)
    ensures j < |log| - 1 ==> log[j].reply.status == 0
    decreases |log|
  {
    var prev := log[..|log| - 1];
    if j < |log| - 1 {
      RanStep(oracle, prev, base, id, j);
      assert prev[base..j] == log[base..j] && prev[..j] == log[..j];
      if j < |prev| - 1 {
        assert prev[j] == log[j];
      }
    } else {
      assert prev[base..] == log[base..j];
    }
  }

  /** The query of device `id` computed directly: from `log`, whose exchanges after `base`
      are the query so far, issue the next call, stop after a call that fails or after the
      25th, and go on otherwise. */
  ghost function RunFrom(oracle: (seq<Exchange>, Call) -> Reply, log: seq<Exchange>, base: nat, id: Handle): (r: seq<Exchange>)
    requires base <= |log| <= base + QUERY_STEPS
    ensures |log| < base + QUERY_STEPS ==> |log| < |r|
    ensures |log| <= |r| <= base + QUERY_STEPS && r[..|log|] == log
    decreases base + QUERY_STEPS - |log|
  {
    if |log| == base + QUERY_STEPS then log
    else
      var c := NextCall(id, log[base..]);
      var e := Exchange(c, oracle(log, c));
      if e.reply.status != 0 then log + [e]
      else
        var r := RunFrom(oracle, log + [e], base, id);
        assert r[..|log|] == r[..|log| + 1][..|log|];
        r
  }

  /** The log after the query of device `id`, given the log before it. */
  ghost function QueryRun(oracle: (seq<Exchange>, Call) -> Reply, before: seq<Exchange>, id: Handle): (after: seq<Exchange>)
    ensures |before| < |after| <= |before| + QUERY_STEPS && after[..|before|] == before
  {
    RunFrom(oracle, before, |before|, id)
  }

  /** Computing the query from `log` issues the next call first. */
  lemma RunFromNext(oracle: (seq<Exchange>, Call) -> Reply, log: seq<Exchange>, base: nat, id: Handle, e: Exchange)
    requires base <= |log| < base + QUERY_STEPS
    requires e == Exchange(NextCall(id, log[base..]), oracle(log, NextCall(id, log[base..])))
    ensures e.reply.status != 0 ==> RunFrom(oracle, log, base, id) == log + [e]
    ensures e.reply.status == 0 ==> RunFrom(oracle, log, base, id) == RunFrom(oracle, log + [e], base, id)
  {
  }

  /** The m-th exchange of a whole query, seen from the log before it. */
  lemma QueriedAt(oracle: (seq<Exchange>, Call) -> Reply, before: seq<Exchange>, after: seq<Exchange>, id: Handle, m: nat)
    requires Queried(oracle, before, after, id) && |before| <= m < |after|
    ensures m < |before| + QUERY_STEPS
    ensures var log := after[..m];
      after[m] == Exchange(NextCall(id, log[|before|..]), oracle(log, NextCall(id, log[|before|..])))
    ensures m < |after| - 1 ==> after[m].reply.status == 0
    ensures m == |after| - 1 && after[m].reply.status == 0 ==> |after| == |before| + QUERY_STEPS
  {
    RanStep(oracle, after, |before|, id, m);
    assert after[..m][|before|..] == after[|before|..m];
  }

  /** Exchange j of `log` is the next call of the query of `id` begun at `base`, answered by
      the driver. */
  ghost predicate StepAt(oracle: (seq<Exchange>, Call) -> Reply, log: seq<Exchange>, base: nat, id: Handle, j: nat)
    requires base <= j < |log| <= base + QUERY_STEPS
  {
    var prev := log[..j];
    log[j] == Exchange(NextCall(id, prev[base..]), oracle(prev, NextCall(id, prev[base..])))
  }

  /** One exchange of a run: the computed rest of the run from before it is either that
      exchange, when it failed, or the computed rest from after it. */
  lemma RunFromStep(oracle: (seq<Exchange>, Call) -> Reply, after: seq<Exchange>, base: nat, id: Handle, m: nat)
    requires base <= m < |after| <= base + QUERY_STEPS
    requires StepAt(oracle, after, base, id, m)
    ensures after[m].reply.status != 0 ==> RunFrom(oracle, after[..m], base, id) == after[..m + 1]
    ensures after[m].reply.status == 0 ==> RunFrom(oracle, after[..m], base, id) == RunFrom(oracle, after[..m + 1], base, id)
  {
    RunFromNext(oracle, after[..m], base, id, after[m]);
    assert after[..m] + [after[m]] == after[..m + 1];
  }

  /** From any point of a run whose every exchange is the next call answered by the driver,
      and which stops at its first failure or after 25 calls, computing the rest of it gives
      the same log. */
  lemma {:induction false} RunFromSteps(oracle: (seq<Exchange>, Call) -> Reply, after: seq<Exchange>, base: nat,
                                        id: Handle, m: nat)
    requires base <= m < |after| <= base + QUERY_STEPS
    requires forall j :: m <= j < |after| ==> StepAt(oracle, after, base, id, j)
    requires forall j :: m <= j < |after| - 1 ==> after[j].reply.status == 0
    requires after[|after| - 1].reply.status == 0 ==> |after| == base + QUERY_STEPS
    ensures RunFrom(oracle, after[..m], base, id) == after
    decreases |after| - m
  {
    RunFromStep(oracle, after, base, id, m);
    if m < |after| - 1 {
      RunFromSteps(oracle, after, base, id, m + 1);
    } else if after[m].reply.status != 0 {
      assert after[..m + 1] == after;
    } else {
      assert after[..m + 1] == after && |after| == base + QUERY_STEPS;
    }
  }


  /** A whole query is the query computed directly: the driver answers deterministically, so
      the log before it decides the log after it. */
  lemma QueriedRuns(oracle: (seq<Exchange>, Call) -> Reply, before: seq<Exchange>, after: seq<Exchange>, id: Handle)
    requires Queried(oracle, before, after, id)
    ensures after == QueryRun(oracle, before, id)
  {
    forall j | |before| <= j < |after|
      ensures StepAt(oracle, after, |before|, id, j)
      ensures j < |after| - 1 ==> after[j].reply.status == 0
    {
      QueriedAt(oracle, before, after, id, j);
    }
    QueriedAt(oracle, before, after, id, |after| - 1);
    RunFromSteps(oracle, after, |before|, id, |before|);
  }

  /** The query is deterministic: given the driver and the log before it, there is only one log
      after it. */
  lemma QueriedUnique(oracle: (seq<Exchange>, Call) -> Reply, before: seq<Exchange>, a1: seq<Exchange>,
                      a2: seq<Exchange>, id: Handle)
    requires Queried(oracle, before, a1, id) && Queried(oracle, before, a2, id)
    ensures a1 == a2
  {
    QueriedRuns(oracle, before, a1, id);
    QueriedRuns(oracle, before, a2, id);
  }

  /** Issues the k-th query call of device `id`: the `clGetDeviceInfo` call whose status goes to
      `throwOnCLError`. On success the query has advanced to step k + 1; on failure it is over. */
  method Ask(drv: Driver, id: Handle, k: nat, dims: u32, ghost base: nat) returns (reply: Reply)
    requires k < QUERY_STEPS && Progress(drv.oracle, drv.log, base, id, k)
    requires k > DIMS_STEP ==> dims == ToU32(drv.log[base + DIMS_STEP].reply.value)
    modifies drv
    ensures |drv.log| == |old(drv.log)| + 1 && old(drv.log) <= drv.log
    ensures reply == drv.log[|drv.log| - 1].reply
    ensures reply.status == 0 ==> Progress(drv.oracle, drv.log, base, id, k + 1)
    ensures reply.status != 0 ==> Ran(drv.oracle, drv.log, base, id)
  {
    ghost var prev := drv.log;
    assert NextCall(id, prev[base..]) == QueryCall(id, k, dims);
    reply := drv.Issue(QueryCall(id, k, dims));
    assert drv.log[..|drv.log| - 1] == prev;
  }

  /** The replies of a stretch of exchanges. */
  function Replies(t: seq<Exchange>): (rs: seq<Reply>)
    ensures |rs| == |t| && forall j :: 0 <= j < |t| ==> rs[j] == t[j].reply
  {
    seq(|t|, j requires 0 <= j < |t| => t[j].reply)
  }

  lemma RepliesAppend(t: seq<Exchange>, u: seq<Exchange>)
    ensures Replies(t + u) == Replies(t) + Replies(u)
  {
  }

  /** The reply groups one after the other. */
  ghost function Concat(groups: seq<seq<Reply>>): (rs: seq<Reply>)
  {
    if groups == [] then [] else Concat(groups[..|groups| - 1]) + groups[|groups| - 1]
  }

  /** When every group holds the 25 replies of one query, group p is found at position
      25 * p of the concatenation. */
  lemma {:induction false} ConcatAt(groups: seq<seq<Reply>>, p: nat)
    requires forall q :: 0 <= q < |groups| ==> |groups[q]| == QUERY_STEPS
    requires p < |groups|
    ensures |Concat(groups)| == QUERY_STEPS * |groups|
    ensures Concat(groups)[QUERY_STEPS * p..QUERY_STEPS * (p + 1)] == groups[p]
    decreases |groups|
  {
    var init := groups[..|groups| - 1];
    if p < |init| {
      ConcatAt(init, p);
    } else if init != [] {
      ConcatAt(init, 0);
    }
  }

  /** The first k steps of the query succeeded from `before` to `log`; `replies` holds their
      replies, and `dims` the dimension count once step 3 has answered. */
  ghost predicate Asked(oracle: (seq<Exchange>, Call) -> Reply, before: seq<Exchange>, log: seq<Exchange>,
                        id: Handle, k: nat, replies: seq<Reply>, dims: u32)
  {
    && Progress(oracle, log, |before|, id, k)
    && before <= log
    && replies == Replies(log[|before|..])
    && (k > DIMS_STEP ==> dims == ToU32(log[|before| + DIMS_STEP].reply.value))
  }

  /** One more query call, answered with success. */
  lemma AskedStep(oracle: (seq<Exchange>, Call) -> Reply, before: seq<Exchange>, log: seq<Exchange>,
                  id: Handle, k: nat, replies: seq<Reply>, dims: u32, next: seq<Exchange>)
    requires Asked(oracle, before, log, id, k, replies, dims) && k < QUERY_STEPS
    requires |next| == |log| + 1 && log <= next && Progress(oracle, next, |before|, id, k + 1)
    ensures Asked(oracle, before, next, id, k + 1, replies + [next[|log|].reply],
                  if k == DIMS_STEP then ToU32(next[|log|].reply.value) else dims)
  {
    assert next[|before|..] == log[|before|..] + [next[|log|]];
  }

  /** The 25 `clGetDeviceInfo` calls of `query()`, in order, each through `throwOnCLError`: the
      query of `id` runs to its first failure, whose error it returns, or to the end, and then
      `replies` holds the 25 replies. The dimension count read at step 3 sizes step 5. */
  method QueryAll(drv: Driver, id: Handle) returns (o: Outcome<Error>, replies: seq<Reply>)
    modifies drv
    ensures Queried(drv.oracle, old(drv.log), drv.log, id)
    ensures o.Pass? <==> |drv.log| == |old(drv.log)| + QUERY_STEPS && drv.log[|drv.log| - 1].reply.status == 0
    ensures o.Fail? ==> o.error == ClError(drv.log[|drv.log| - 1].reply.status)
    ensures o.Pass? ==> replies == Replies(drv.log[|old(drv.log)|..])
  {
    ghost var before := drv.log;
    ghost var base := |before|;
    replies := [];
    var dims: u32 := 0;
    for k := 0 to QUERY_STEPS
      invariant Asked(drv.oracle, before, drv.log, id, k, replies, dims)
    {
      ghost var prev := drv.log;
      var reply := Ask(drv, id, k, dims, base);
      if reply.status != 0 {
        assert drv.log[..base] == before;
        return Fail(ClError(reply.status)), replies;
      }
      AskedStep(drv.oracle, before, prev, id, k, replies, dims, drv.log);
      if k == DIMS_STEP {
        dims := ToU32(reply.value);
      }
      replies := replies + [reply];
    }
    assert drv.log[..base] == before;
    o := Pass;
  }

  /** The `push_back` loop copying the sizes array the driver filled into the vector. Where the
      driver wrote fewer sizes than the dimension count, the C++ array (`new ulong[...]`) is
      uninitialised; the model reads 0 there. */
  method CopySizes(written: seq<u64>, dims: u32) returns (sizes: seq<u64>)
    ensures sizes == Fill(written, dims)
  {
    sizes := [];
    for i := 0 to dims
      invariant sizes == Fill(written, i)
    {
      sizes := sizes + [if i < |written| then written[i] else 0];
    }
  }

  /** The fields are set once, by the constructor's query, and never change afterwards. */
  class Device {
    const id: Handle
    const vendorId: VendorId
    const deviceType: u64
    const maxComputeUnits: u32
    const maxWorkItemDims: u32
    const maxWorkGroupSize: u64
    const maxWorkItemSizes: seq<u64>
    const maxClockFreq: u32
    const addressBits: u32
    const maxConstantArgs: u32
    const maxMemAllocSize: u64
    const globalMemSize: u64
    const localMemSize: u64
    const maxConstantBufferSize: u64
    const available: u32
    const compilerAvailable: u32
    const littleEndian: u32
    const errorCorrection: u32
    const queueProperties: u64
    const execCaps: u64
    const fpConfig: u64
    const timerResolution: u64
    const name: string
    const deviceVersion: string
    const driverVersion: string
    const extensions: string

    /** The field that step k of the query fills holds what that step read from its reply
        `rs[k]`: `uint` fields the low 4 bytes, `ulong` fields all 8, strings up to the NUL,
        the work-item sizes as many ulongs as the dimension count of step 3 says, and the
        vendor classified by name. */
    ghost predicate Holds(k: nat, rs: seq<Reply>)
      requires k < QUERY_STEPS == |rs|
    {
      match k
      case 0 => vendorId == ClassifyVendor(CString(rs[0].text))
      case 1 => deviceType == rs[1].value
      case 2 => maxComputeUnits == ToU32(rs[2].value)
      case 3 => maxWorkItemDims == ToU32(rs[3].value)
      case 4 => maxWorkGroupSize == rs[4].value
      case 5 => maxWorkItemSizes == Fill(rs[5].values, ToU32(rs[3].value))
      case 6 => maxClockFreq == ToU32(rs[6].value)
      case 7 => addressBits == ToU32(rs[7].value)
      case 8 => maxMemAllocSize == rs[8].value
      case 9 => globalMemSize == rs[9].value
      case 10 => localMemSize == rs[10].value
      case 11 => maxConstantBufferSize == rs[11].value
      case 12 => available == ToU32(rs[12].value)
      case 13 => compilerAvailable == ToU32(rs[13].value)
      case 14 => littleEndian == ToU32(rs[14].value)
      case 15 => errorCorrection == ToU32(rs[15].value)
      case 16 => extensions == CString(rs[16].text)
      case 17 => name == CString(rs[17].text)
      case 18 => deviceVersion == CString(rs[18].text)
      case 19 => driverVersion == CString(rs[19].text)
      case 20 => queueProperties == rs[20].value
      case 21 => execCaps == rs[21].value
      case 22 => timerResolution == rs[22].value
      case 23 => maxConstantArgs == ToU32(rs[23].value)
      case _ => fpConfig == rs[24].value
    }

    /** Every field holds what the query read for it from the 25 replies. */
    ghost predicate Reads(rs: seq<Reply>)
      requires |rs| == QUERY_STEPS
    {
      forall k :: 0 <= k < QUERY_STEPS ==> Holds(k, rs)
    }

    /** The assignments of `query()` to a new device: each field from its reply; the strings
        are appended (`+=`) to fields that start empty, which leaves them as read. */
    constructor (id: Handle, rs: seq<Reply>)
      requires |rs| == QUERY_STEPS
      ensures this.id == id && Reads(rs)
    {
      this.id := id;
      vendorId := ClassifyVendor(CString(rs[0].text));
      deviceType := rs[1].value;
      maxComputeUnits := ToU32(rs[2].value);
      maxWorkItemDims := ToU32(rs[3].value);
      maxWorkGroupSize := rs[4].value;
      var sizes := CopySizes(rs[5].values, ToU32(rs[3].value));
      maxWorkItemSizes := sizes;
      maxClockFreq := ToU32(rs[6].value);
      addressBits := ToU32(rs[7].value);
      maxMemAllocSize := rs[8].value;
      globalMemSize := rs[9].value;
      localMemSize := rs[10].value;
      maxConstantBufferSize := rs[11].value;
      available := ToU32(rs[12].value);
      compilerAvailable := ToU32(rs[13].value);
      littleEndian := ToU32(rs[14].value);
      errorCorrection := ToU32(rs[15].value);
      extensions := CString(rs[16].text);
      name := CString(rs[17].text);
      deviceVersion := CString(rs[18].text);
      driverVersion := CString(rs[19].text);
      queueProperties := rs[20].value;
      execCaps := rs[21].value;
      timerResolution := rs[22].value;
      maxConstantArgs := ToU32(rs[23].value);
      fpConfig := rs[24].value;
    }

    /** `Device(id)` with its `query()`: the 25 capability calls in order, stopping at the
        first one that fails with that call's error; on success a new device whose fields
        hold what the calls read. */
    static method Open(drv: Driver, id: Handle) returns (r: Result<Device, Error>)
      modifies drv
      ensures drv.log == QueryRun(drv.oracle, old(drv.log), id)
      ensures r.Success? <==> |drv.log| == |old(drv.log)| + QUERY_STEPS && drv.log[|drv.log| - 1].reply.status == 0
      ensures r.Failure? ==> drv.log[|drv.log| - 1].reply.status != 0
                             && r.error == ClError(drv.log[|drv.log| - 1].reply.status)
      ensures r.Success? ==> fresh(r.value) && r.value.id == id && r.value.Reads(Replies(drv.log[|old(drv.log)|..]))
    {
      ghost var before := drv.log;
      var o, replies := QueryAll(drv, id);
      QueriedRuns(drv.oracle, before, drv.log, id);
      if o.Fail? {
        return Failure(o.error);
      }
      var d := new Device(id, replies);
      r := Success(d);
    }
  }

  // ---------------------------------------------------------------------------
  // The integer conversions of the description

  const MEGABYTE: nat := 1024 * 1024
  const KILOBYTE: nat := 1024

  /** A byte count shown in whole MBs, rounded down. */
  function MegaBytes(bytes: u64): (mb: u64)
    ensures mb * MEGABYTE <= bytes < (mb + 1) * MEGABYTE
  {
    bytes / MEGABYTE
  }

  /** A byte count shown in whole KBs, rounded down. */
  function KiloBytes(bytes: u64): (kb: u64)
    ensures kb * KILOBYTE <= bytes < (kb + 1) * KILOBYTE
  {
    bytes / KILOBYTE
  }

  /** Each work-item size in decimal (`%llu`). */
  function Decimals(sizes: seq<u64>): (ds: seq<string>)
    ensures |ds| == |sizes|
    ensures forall i :: 0 <= i < |sizes| ==> AllDigits(ds[i]) && DigitsValue(ds[i]) == sizes[i]
  {
    if sizes == [] then []
    else
      NatToStringRoundTrip(sizes[0]);
      [NatToString(sizes[0])] + Decimals(sizes[1..])
  }

  /** The work-item sizes as the description shows them. */
  function SizesText(sizes: seq<u64>): string
  {
    Join(Decimals(sizes), ' ')
  }

  /** The loop of `toString` that shows the work-item sizes: a space before every size but
      the first, then the size in decimal. */
  method RenderSizes(sizes: seq<u64>) returns (s: string)
    ensures s == SizesText(sizes)
  {
    s := "";
    for i := 0 to |sizes|
      invariant s == SizesText(sizes[..i])
    {
      SizesTextSnoc(sizes, i);
      if i > 0 {
        s := s + " ";
      }
      s := s + NatToString(sizes[i]);
    }
    assert sizes[..|sizes|] == sizes;
  }

  /** One more size: a space when it is not the first, then its digits. */
  lemma SizesTextSnoc(sizes: seq<u64>, i: nat)
    requires i < |sizes|
    ensures SizesText(sizes[..i + 1]) == SizesText(sizes[..i]) + (if i > 0 then " " else "") + NatToString(sizes[i])
  {
    assert sizes[..i + 1] == sizes[..i] + [sizes[i]];
    DecimalsSnoc(sizes[..i], sizes[i]);
    if i > 0 {
      JoinSnoc(Decimals(sizes[..i]), NatToString(sizes[i]), ' ');
    }
  }

  lemma {:induction false} DecimalsSnoc(sizes: seq<u64>, x: u64)
    ensures Decimals(sizes + [x]) == Decimals(sizes) + [NatToString(x)]
    decreases |sizes|
  {
    if sizes == [] {
      assert sizes + [x] == [x];
    } else {
      assert (sizes + [x])[1..] == sizes[1..] + [x];
      DecimalsSnoc(sizes[1..], x);
    }
  }

  /** The shown sizes, cut at single spaces, read back as the sizes themselves: one field
      per size, so there is no leading, trailing or doubled separator. */
  lemma SizesTextSplit(sizes: seq<u64>)
    requires |sizes| > 0
    ensures Split(SizesText(sizes), ' ') == Decimals(sizes)
  {
    var ds := Decimals(sizes);
    forall k | 0 <= k < |ds| ensures ' ' !in ds[k] {
      assert AllDigits(ds[k]);
    }
    SplitJoin(ds, ' ');
  }
}
