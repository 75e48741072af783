/** `Platform`: a platform handle, its five descriptive strings and its devices, all read
    from the driver when the wrapper is built; it creates a context for the first of its
    devices of a requested type. */
module Platforms {
  import opened ClTypes
  import opened Wrappers
  import opened Errors
  import opened Text
  import opened ClApi
  import opened Properties
  import opened Devices
  import opened Contexts

  // ---------------------------------------------------------------------------
  // The descriptive strings

  const INFO_STEPS: nat := 5

  /** The string read at step k of `queryPlatformInfo()`. */
  function InfoParam(k: nat): PlatformParam
    requires k < INFO_STEPS
  {
    match k
    case 0 => PlatformName
    case 1 => PlatformVendor
    case 2 => PlatformVersion
    case 3 => PlatformProfile
    case _ => PlatformExtensions
  }

  /** The k-th call of `queryPlatformInfo()`, into a `char buf[1024]`. */
  function InfoCall(id: Handle, k: nat): (c: Call)
    requires k < INFO_STEPS
    ensures c.GetPlatformInfo? && c.platform == id && c.platformParam == InfoParam(k)
    ensures c.capacity == INFO_BUFFER_SIZE
  {
    GetPlatformInfo(id, InfoParam(k), INFO_BUFFER_SIZE)
  }

  /** The log after the first n calls of the string query of platform `id` were made, after
      `before`, each answered by the driver given the log before it. */
  ghost function InfoLog(oracle: (seq<Exchange>, Call) -> Reply, before: seq<Exchange>, id: Handle, n: nat): (log: seq<Exchange>)
    requires n <= INFO_STEPS
    ensures |log| == |before| + n && log[..|before|] == before
    ensures forall j :: |before| <= j < |log| ==> log[j].call == InfoCall(id, j - |before|)
  {
    if n == 0 then before
    else
      var prev := InfoLog(oracle, before, id, n - 1);
      prev + [Exchange(InfoCall(id, n - 1), oracle(prev, InfoCall(id, n - 1)))]
  }

  /** The whole string query took the log from `before` to `after`: the calls in order, up to
      and including the first that failed, or all five. */
  ghost predicate InfoQueried(oracle: (seq<Exchange>, Call) -> Reply, before: seq<Exchange>, after: seq<Exchange>, id: Handle)
  {
    && |before| < |after| <= |before| + INFO_STEPS
    && after == InfoLog(oracle, before, id, |after| - |before|)
    && (forall j :: |before| <= j < |after| - 1 ==> after[j].reply.status == 0)
    && (|after| < |before| + INFO_STEPS ==> after[|after| - 1].reply.status != 0)
  }

  /** The first k string calls were made from `before` to `log` and all succeeded; `texts`
      holds their strings, each buffer read up to its terminating NUL. */
  ghost predicate InfoProgress(oracle: (seq<Exchange>, Call) -> Reply, before: seq<Exchange>, log: seq<Exchange>,
                               id: Handle, k: nat, texts: seq<string>)
  {
    && k <= INFO_STEPS
    && log == InfoLog(oracle, before, id, k)
    && (forall j :: |before| <= j < |log| ==> log[j].reply.status == 0)
    && |texts| == k
    && (forall j :: 0 <= j < k ==> texts[j] == CString(log[|before| + j].reply.text))
  }

  /** One more string call, answered with success. */
  lemma InfoStep(oracle: (seq<Exchange>, Call) -> Reply, before: seq<Exchange>, log: seq<Exchange>,
                 id: Handle, k: nat, texts: seq<string>, e: Exchange)
    requires InfoProgress(oracle, before, log, id, k, texts) && k < INFO_STEPS
    requires e == Exchange(InfoCall(id, k), oracle(log, InfoCall(id, k))) && e.reply.status == 0
    ensures InfoProgress(oracle, before, log + [e], id, k + 1, texts + [CString(e.reply.text)])
  {
  }

  /** `queryPlatformInfo()`: the five `clGetPlatformInfo` calls in order, each through
      `throwOnCLError`; on success `texts` holds the five strings. */
  method QueryInfo(drv: Driver, id: Handle) returns (o: Outcome<Error>, texts: seq<string>)
    modifies drv
    ensures InfoQueried(drv.oracle, old(drv.log), drv.log, id)
    ensures o.Pass? <==> |drv.log| == |old(drv.log)| + INFO_STEPS && drv.log[|drv.log| - 1].reply.status == 0
    ensures o.Fail? ==> o.error == ClError(drv.log[|drv.log| - 1].reply.status)
    ensures o.Pass? ==> InfoProgress(drv.oracle, old(drv.log), drv.log, id, INFO_STEPS, texts)
  {
    texts := [];
    for k := 0 to INFO_STEPS
      invariant InfoProgress(drv.oracle, old(drv.log), drv.log, id, k, texts)
    {
      ghost var prev := drv.log;
      var reply := drv.Issue(InfoCall(id, k));
      if reply.status != 0 {
        return Fail(ClError(reply.status)), texts;
      }
      InfoStep(drv.oracle, old(drv.log), prev, id, k, texts, drv.log[|drv.log| - 1]);
      texts := texts + [CString(reply.text)];
    }
    o := Pass;
  }

  // ---------------------------------------------------------------------------
  // The device list

  /** The two `clGetDeviceIDs` calls of `queryDevices()`: the first asks for the count, the
      second for that many ids; a failing first call is the last one. */
  ghost predicate Listed(oracle: (seq<Exchange>, Call) -> Reply, before: seq<Exchange>, after: seq<Exchange>, id: Handle)
  {
    var c1 := GetDeviceIDs(id, CL_DEVICE_TYPE_ALL, 0);
    var r1 := oracle(before, c1);
    var log1 := before + [Exchange(c1, r1)];
    var c2 := GetDeviceIDs(id, CL_DEVICE_TYPE_ALL, ToU32(r1.value));
    if r1.status != 0 then after == log1 else after == log1 + [Exchange(c2, oracle(log1, c2))]
  }

  /** The ids the device loop reads: as many as the second call reports, but no more than
      the buffer the first count sized holds. */
  function DeviceIds(buffer: seq<Handle>, count: nat): (ids: seq<Handle>)
    ensures |ids| == if count <= |buffer| then count else |buffer|
    ensures ids <= buffer
  {
    if count <= |buffer| then buffer[..count] else buffer
  }

  /** The loop of `queryDevices()` as written: entries 0 .. count - 1 of the buffer, where count
      is the number the second call reports; it stays inside the buffer only when that number
      is at most the buffer's length. */
  function DeviceIdsAsWritten(buffer: seq<Handle>, count: nat): (ids: seq<Handle>)
    requires count <= |buffer|
    ensures ids == DeviceIds(buffer, count)
  {
    buffer[..count]
  }

  /** A driver that reports one device on the count call and two on the listing call (a device
      that appeared in between): the listing call asks for one entry, and the loop as written
      would read two, one past the array the first count sized. */
  lemma AsWrittenReadsPastArray(oracle: (seq<Exchange>, Call) -> Reply, before: seq<Exchange>,
                                log: seq<Exchange>, id: Handle)
    requires Listed(oracle, before, log, id) && |log| == |before| + 2
    requires log[|log| - 2].reply.value == 1
    requires log[|log| - 1].reply.status == 0 && log[|log| - 1].reply.value == 2
    ensures log[|log| - 1].call == GetDeviceIDs(id, CL_DEVICE_TYPE_ALL, 1)
    ensures |Fill(log[|log| - 1].reply.values, ToU32(log[|log| - 2].reply.value))| == 1
    ensures ToU32(log[|log| - 1].reply.value) == 2
    ensures |ListedIds(log)| == 1
  {
  }

  /** When the two counts agree, the loop reads exactly the ids the driver wrote. */
  lemma DeviceIdsWhenCountsAgree(written: seq<Handle>, n: nat)
    requires n <= |written|
    ensures DeviceIds(Fill(written, n), n) == written[..n]
  {
  }

  /** Every id the loop reads lies within both counts and is the one the driver wrote at that
      position; where the driver wrote fewer ids than it reported, the C++ array
      (`new cl_device_id[numDevices]`) is uninitialised and the model reads 0 instead. */
  lemma DeviceIdsFromArray(written: seq<Handle>, n: nat, count: nat, i: nat)
    requires i < |DeviceIds(Fill(written, n), count)|
    ensures i < n && i < count
    ensures DeviceIds(Fill(written, n), count)[i] == if i < |written| then written[i] else 0
  {
    var ids := DeviceIds(Fill(written, n), count);
    assert ids[i] == Fill(written, n)[i];
  }

  /** `queryDevices()` up to the loop: the count call and the listing call, each through
      `throwOnCLError`; the ids the loop goes on to open. */
  method ListDevices(drv: Driver, id: Handle) returns (r: Result<seq<Handle>, Error>)
    modifies drv
    ensures Listed(drv.oracle, old(drv.log), drv.log, id)
    ensures r.Success? <==> |drv.log| == |old(drv.log)| + 2 && drv.log[|drv.log| - 1].reply.status == 0
    ensures r.Failure? ==> drv.log[|drv.log| - 1].reply.status != 0
                           && r.error == ClError(drv.log[|drv.log| - 1].reply.status)
    ensures r.Success? ==> r.value == ListedIds(drv.log)
  {
    var first := drv.Issue(GetDeviceIDs(id, CL_DEVICE_TYPE_ALL, 0));
    if first.status != 0 {
      return Failure(ClError(first.status));
    }
    var numDevices := ToU32(first.value);
    var second := drv.Issue(GetDeviceIDs(id, CL_DEVICE_TYPE_ALL, numDevices));
    if second.status != 0 {
      return Failure(ClError(second.status));
    }
    r := Success(DeviceIds(Fill(second.values, numDevices), ToU32(second.value)));
  }

  /** The log after the devices of `ids` were queried one after the other from `log`, the
      first query that fails ending the loop. */
  ghost function DevicesRun(oracle: (seq<Exchange>, Call) -> Reply, log: seq<Exchange>, ids: seq<Handle>): (after: seq<Exchange>)
    ensures |log| <= |after| && after[..|log|] == log
    decreases |ids|
  {
    if ids == [] then log
    else
      var next := QueryRun(oracle, log, ids[0]);
      if next[|next| - 1].reply.status != 0 then next
      else
        var after := DevicesRun(oracle, next, ids[1..]);
        assert after[..|log|] == after[..|next|][..|log|];
        after
  }

  /** The ids listed by a successful count call and listing call, the last two exchanges of
      `log`. */
  function ListedIds(log: seq<Exchange>): (ids: seq<Handle>)
    requires 2 <= |log|
  {
    var r1 := log[|log| - 2].reply;
    var r2 := log[|log| - 1].reply;
    DeviceIds(Fill(r2.values, ToU32(r1.value)), ToU32(r2.value))
  }

  /** The devices of the first |groups| ids of `ids` were opened one after the other, taking
      the log from `before` to `log`: each query succeeded, its 25 replies are the next group,
      and each device holds what its own group says. The rest of the run of `ids` is the run
      of the remaining ids from `log`. */
  ghost predicate Opened(oracle: (seq<Exchange>, Call) -> Reply, before: seq<Exchange>, log: seq<Exchange>,
                         ids: seq<Handle>, devices: seq<Device>, groups: seq<seq<Reply>>)
  {
    && |devices| == |groups| <= |ids|
    && |log| == |before| + QUERY_STEPS * |groups| && log[..|before|] == before
    && DevicesRun(oracle, before, ids) == DevicesRun(oracle, log, ids[|groups|..])
    && (groups != [] ==> log[|log| - 1].reply.status == 0)
    && (forall q :: 0 <= q < |groups| ==>
          && devices[q].id == ids[q] && |groups[q]| == QUERY_STEPS && devices[q].Reads(groups[q]))
    && Replies(log[|before|..]) == Concat(groups)
  }

  /** One more device opened: its query ran in full from `log` and succeeded. */
  lemma OpenedStep(oracle: (seq<Exchange>, Call) -> Reply, before: seq<Exchange>, log: seq<Exchange>,
                   ids: seq<Handle>, devices: seq<Device>, groups: seq<seq<Reply>>, next: seq<Exchange>, d: Device)
    requires Opened(oracle, before, log, ids, devices, groups) && |groups| < |ids|
    requires next == QueryRun(oracle, log, ids[|groups|])
    requires |next| == |log| + QUERY_STEPS && next[|next| - 1].reply.status == 0
    requires d.id == ids[|groups|] && d.Reads(Replies(next[|log|..]))
    ensures Opened(oracle, before, next, ids, devices + [d], groups + [Replies(next[|log|..])])
  {
    var p := |groups|;
    assert ids[p..][1..] == ids[p + 1..];
    assert next[|before|..|log|] == log[|before|..] by { assert next[..|log|] == log; }
    assert next[|before|..] == next[|before|..|log|] + next[|log|..];
    RepliesAppend(log[|before|..], next[|log|..]);
  }

  /** A device query that fails ends the run. */
  lemma OpenedFail(oracle: (seq<Exchange>, Call) -> Reply, before: seq<Exchange>, log: seq<Exchange>,
                   ids: seq<Handle>, devices: seq<Device>, groups: seq<seq<Reply>>, next: seq<Exchange>)
    requires Opened(oracle, before, log, ids, devices, groups) && |groups| < |ids|
    requires next == QueryRun(oracle, log, ids[|groups|]) && next[|next| - 1].reply.status != 0
    ensures next == DevicesRun(oracle, before, ids)
  {
    assert ids[|groups|..][0] == ids[|groups|];
  }

  /** Every device opened: the run is over. */
  lemma OpenedAll(oracle: (seq<Exchange>, Call) -> Reply, before: seq<Exchange>, log: seq<Exchange>,
                  ids: seq<Handle>, devices: seq<Device>, groups: seq<seq<Reply>>)
    requires Opened(oracle, before, log, ids, devices, groups) && |groups| == |ids|
    ensures log == DevicesRun(oracle, before, ids)
    ensures |log| == |before| + QUERY_STEPS * |ids| && (ids == [] || log[|log| - 1].reply.status == 0)
  {
  }

  /** The loop of `queryDevices()`: a `Device` for each id, in order, the first that fails
      ending the loop with its error. */
  method OpenDevices(drv: Driver, ids: seq<Handle>) returns (r: Result<seq<Device>, Error>, ghost groups: seq<seq<Reply>>)
    modifies drv
    ensures drv.log == DevicesRun(drv.oracle, old(drv.log), ids)
    ensures r.Success? <==> |drv.log| == |old(drv.log)| + QUERY_STEPS * |ids|
                            && (ids == [] || drv.log[|drv.log| - 1].reply.status == 0)
    ensures r.Failure? ==> |old(drv.log)| < |drv.log| && drv.log[|drv.log| - 1].reply.status != 0
                           && r.error == ClError(drv.log[|drv.log| - 1].reply.status)
    ensures r.Success? ==> |r.value| == |ids| && Opened(drv.oracle, old(drv.log), drv.log, ids, r.value, groups)
  {
    var devices: seq<Device> := [];
    groups := [];
    for p := 0 to |ids|
      invariant |devices| == p == |groups|
      invariant Opened(drv.oracle, old(drv.log), drv.log, ids, devices, groups)
    {
      ghost var prev := drv.log;
      var d := Device.Open(drv, ids[p]);
      if d.Failure? {
        OpenedFail(drv.oracle, old(drv.log), prev, ids, devices, groups, drv.log);
        return Failure(d.error), groups;
      }
      OpenedStep(drv.oracle, old(drv.log), prev, ids, devices, groups, drv.log, d.value);
      devices := devices + [d.value];
      groups := groups + [Replies(drv.log[|prev|..])];
    }
    OpenedAll(drv.oracle, old(drv.log), drv.log, ids, devices, groups);
    r := Success(devices);
  }

  /** The calls of `queryDevices()` took the log from `before` to `after`: the listing took it
      to `listLog`; a failed listing is the last call, and otherwise the devices of the listed
      ids were queried one after the other up to the first that failed. */
  ghost predicate DevicesQueried(oracle: (seq<Exchange>, Call) -> Reply, before: seq<Exchange>, after: seq<Exchange>,
                                 id: Handle, listLog: seq<Exchange>)
  {
    && Listed(oracle, before, listLog, id)
    && if |listLog| == |before| + 2 && listLog[|listLog| - 1].reply.status == 0
       then after == DevicesRun(oracle, listLog, ListedIds(listLog))
       else after == listLog
  }

  /** `queryDevices()`: the count call, the listing call, then a device for each listed id;
      the first failure ends it with its error. `listLog` is the log after the listing. */
  method QueryDevices(drv: Driver, id: Handle)
    returns (r: Result<seq<Device>, Error>, ghost listLog: seq<Exchange>, ghost groups: seq<seq<Reply>>)
    modifies drv
    ensures DevicesQueried(drv.oracle, old(drv.log), drv.log, id, listLog)
    ensures r.Failure? ==> |old(drv.log)| < |drv.log| && drv.log[|drv.log| - 1].reply.status != 0
                           && r.error == ClError(drv.log[|drv.log| - 1].reply.status)
    ensures r.Success? ==>
      && Listed(drv.oracle, old(drv.log), listLog, id) && |listLog| == |old(drv.log)| + 2
      && listLog[|listLog| - 1].reply.status == 0
      && |r.value| == |ListedIds(listLog)|
      && Opened(drv.oracle, listLog, drv.log, ListedIds(listLog), r.value, groups)
  {
    var ids := ListDevices(drv, id);
    listLog, groups := drv.log, [];
    if ids.Failure? {
      return Failure(ids.error), listLog, groups;
    }
    r, groups := OpenDevices(drv, ids.value);
  }

  // ---------------------------------------------------------------------------
  // Choosing a device

  /** The position of the first device type equal to `t`. */
  function FirstOfType(types: seq<u64>, t: u64): (r: Option<nat>)
    ensures r.Some? ==> r.value < |types| && types[r.value] == t
    ensures r.Some? ==> forall j :: 0 <= j < r.value ==> types[j] != t
    ensures r.None? <==> t !in types
    decreases |types|
  {
    if types == [] then None
    else if types[0] == t then Some(0)
    else match FirstOfType(types[1..], t)
      case None => None
      case Some(i) => Some(i + 1)
  }

  /** The types of the devices, in order. */
  function TypesOf(devices: seq<Device>): (ts: seq<u64>)
    ensures |ts| == |devices| && forall i :: 0 <= i < |devices| ==> ts[i] == devices[i].deviceType
  {
    if devices == [] then [] else [devices[0].deviceType] + TypesOf(devices[1..])
  }

  /** The context's property list: the platform first, then the caller's properties, then the
      terminating zero. */
  function ContextProperties(id: Handle, props: seq<u64>): (full: seq<u64>)
    ensures |full| == |props| + 3
  {
    [CL_CONTEXT_PLATFORM, id] + props + [0]
  }

  /** The driver reads this platform for CL_CONTEXT_PLATFORM, whatever the caller passed, and
      reads every other key as the caller's properties give it. */
  lemma ContextPropertiesRead(id: Handle, pairs: seq<Property>, key: u64)
    requires NonZeroKeys(pairs)
    ensures Lookup(ContextProperties(id, Flatten(pairs)), CL_CONTEXT_PLATFORM) == Some(id)
    ensures key != CL_CONTEXT_PLATFORM ==> Lookup(ContextProperties(id, Flatten(pairs)), key) == FirstValue(pairs, key)
  {
    var rest := Flatten(pairs) + [0];
    assert ContextProperties(id, Flatten(pairs)) == [CL_CONTEXT_PLATFORM as u64, id] + rest;
    LookupPrepend(CL_CONTEXT_PLATFORM, id, rest, CL_CONTEXT_PLATFORM);
    LookupPrepend(CL_CONTEXT_PLATFORM, id, rest, key);
    LookupFlatten(pairs, key);
  }

  const NO_DEVICE_MESSAGE: string := "Can't find OpenCL device on this platform"

  // ---------------------------------------------------------------------------
  // The platform

  /** What `Platform(id)` did, from the log `before` to the log `after`: the string query
      ran to `infoLog`, stopping at its first failure, which is then the last call; otherwise
      `queryDevices()` took the log on to `after`. A failure anywhere is the error of the
      last call. On success the strings are the five replies', the device list took the log to
      `listLog`, and the devices are those of the listed ids, opened one after the other
      (`Opened`), each holding what its own group of replies says. */
  ghost predicate PlatformRead(oracle: (seq<Exchange>, Call) -> Reply, before: seq<Exchange>, after: seq<Exchange>,
                               id: Handle, r: Result<Platform, Error>, infoLog: seq<Exchange>,
                               listLog: seq<Exchange>, groups: seq<seq<Reply>>)
  {
    && InfoQueried(oracle, before, infoLog, id)
    && (if |infoLog| == |before| + INFO_STEPS && infoLog[|infoLog| - 1].reply.status == 0
        then DevicesQueried(oracle, infoLog, after, id, listLog)
        else after == infoLog)
    && (r.Failure? ==> |after| > 0 && after[|after| - 1].reply.status != 0
                       && r.error == ClError(after[|after| - 1].reply.status))
    && (r.Success? ==>
          && |infoLog| == |before| + INFO_STEPS && infoLog[|infoLog| - 1].reply.status == 0
          && r.value.id == id
          && r.value.name == CString(infoLog[|before|].reply.text)
          && r.value.vendor == CString(infoLog[|before| + 1].reply.text)
          && r.value.version == CString(infoLog[|before| + 2].reply.text)
          && r.value.profile == CString(infoLog[|before| + 3].reply.text)
          && r.value.extensions == CString(infoLog[|before| + 4].reply.text)
          && Listed(oracle, infoLog, listLog, id) && |listLog| == |infoLog| + 2
          && |r.value.devices| == |ListedIds(listLog)|
          && Opened(oracle, listLog, after, ListedIds(listLog), r.value.devices, groups))
  }

  class Platform {
    const id: Handle
    const name: string
    const vendor: string
    const version: string
    const profile: string
    const extensions: string
    const devices: seq<Device>

    /** The assignments of the constructor; each string is appended (`+=`) to an empty one,
        which leaves it as it is. */
    constructor (id: Handle, texts: seq<string>, devices: seq<Device>)
      requires |texts| == INFO_STEPS
      ensures this.id == id && this.devices == devices
      ensures name == texts[0] && vendor == texts[1] && version == texts[2]
      ensures profile == texts[3] && extensions == texts[4]
    {
      this.id := id;
      name := texts[0];
      vendor := texts[1];
      version := texts[2];
      profile := texts[3];
      extensions := texts[4];
      this.devices := devices;
    }

    /** `Platform(id)`: `queryPlatformInfo()` then `queryDevices()`, the first failure ending
        construction with its error. */
    static method Open(drv: Driver, id: Handle)
      returns (r: Result<Platform, Error>, ghost infoLog: seq<Exchange>, ghost listLog: seq<Exchange>,
               ghost groups: seq<seq<Reply>>)
      modifies drv
      ensures PlatformRead(drv.oracle, old(drv.log), drv.log, id, r, infoLog, listLog, groups)
      ensures r.Success? ==> fresh(r.value)
    {
      var o, texts := QueryInfo(drv, id);
      infoLog, listLog, groups := drv.log, drv.log, [];
      if o.Fail? {
        return Failure(o.error), infoLog, listLog, groups;
      }
      var devices;
      devices, listLog, groups := QueryDevices(drv, id);
      if devices.Failure? {
        return Failure(devices.error), infoLog, listLog, groups;
      }
      var p := new Platform(id, texts, devices.value);
      r := Success(p);
    }

    /** `createContext(type, props)`: the first device of the requested type, or the error
        "Can't find OpenCL device on this platform" without a call; then one `clCreateContext`
        for that device alone, whose status goes through `throwOnCLError`. The context
        shares the platform's device object. */
    method CreateContext(drv: Driver, deviceType: u64, props: seq<u64> := []) returns (r: Result<Context, Error>)
      modifies drv
      ensures var found := FirstOfType(TypesOf(devices), deviceType);
        if found.None? then
          drv.log == old(drv.log) && r == Failure(Raised(NO_DEVICE_MESSAGE))
        else
          var c := ClApi.CreateContext(ContextProperties(id, props), [devices[found.value].id]);
          var reply := drv.oracle(old(drv.log), c);
          && Appended(drv, c)
          && r == OnSuccess(reply, Context(reply.handle, devices[found.value]))
    {
      var full := ContextProperties(id, props);
      var index := -1;
      var i := 0;
      while i < |devices|
        invariant 0 <= i <= |devices|
        invariant forall j :: 0 <= j < i ==> devices[j].deviceType != deviceType
        decreases |devices| - i
      {
        if devices[i].deviceType == deviceType {
          index := i;
          break;
        }
        i := i + 1;
      }
      assert index == -1 ==> deviceType !in TypesOf(devices);
      assert index != -1 ==> FirstOfType(TypesOf(devices), deviceType) == Some(index);
      if index == -1 {
        return Failure(Raised(NO_DEVICE_MESSAGE));
      }
      var reply := drv.Issue(ClApi.CreateContext(full, [devices[index].id]));
      r := OnSuccess(reply, Context(reply.handle, devices[index]));
    }
  }
}
