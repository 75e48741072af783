/** `OpenCL`: the entry point. It lists the platform ids once, when it is made, and opens the
    first platform on which a context for a requested device type can be created. */
module Runtime {
  import opened ClTypes
  import opened Wrappers
  import opened Errors
  import opened ClApi
  import opened Properties
  import opened Devices
  import opened Platforms

  const NO_PLATFORM_MESSAGE: string := "Unable to find OpenCL platform"

  // ---------------------------------------------------------------------------
  // Listing the platforms

  /** The two `clGetPlatformIDs` calls of `enumeratePlatforms()`: the first asks for the count;
      when it succeeds, the second asks for that many ids. */
  ghost predicate Enumerated(oracle: (seq<Exchange>, Call) -> Reply, before: seq<Exchange>, after: seq<Exchange>)
  {
    var r1 := oracle(before, GetPlatformIDs(0));
    var log1 := before + [Exchange(GetPlatformIDs(0), r1)];
    var c2 := GetPlatformIDs(ToU32(r1.value));
    if r1.status != 0 then after == log1 else after == log1 + [Exchange(c2, oracle(log1, c2))]
  }

  /** The platform ids after a successful count call and listing call, the last two
      exchanges of `log`: the vector is resized to the count, then filled by the driver. */
  function PlatformIdsOf(log: seq<Exchange>): (ids: seq<Handle>)
    requires 2 <= |log|
    ensures |ids| == ToU32(log[|log| - 2].reply.value) as int
    ensures forall i :: 0 <= i < |ids| && i < |log[|log| - 1].reply.values| ==> ids[i] == log[|log| - 1].reply.values[i]
  {
    Fill(log[|log| - 1].reply.values, ToU32(log[|log| - 2].reply.value))
  }

  // ---------------------------------------------------------------------------
  // Probing a platform

  /** The property list of the probe: the platform and nothing else. */
  function ProbeProperties(pid: Handle): (props: seq<u64>)
    ensures Lookup(props, CL_CONTEXT_PLATFORM) == Some(pid)
    ensures forall key :: key != CL_CONTEXT_PLATFORM ==> Lookup(props, key) == None
  {
    var props := [CL_CONTEXT_PLATFORM as u64, pid, 0];
    assert props[2..] == [0];
    props
  }

  /** The context creation call of the probe of platform `pid` for devices of type `t`. */
  function ProbeCall(pid: Handle, t: u64): Call
  {
    CreateContextFromType(ProbeProperties(pid), t)
  }

  /** The log after the probe: the creation call, then the release of the context when the
      driver returned one, whatever the status. */
  ghost function ProbeLog(oracle: (seq<Exchange>, Call) -> Reply, before: seq<Exchange>, pid: Handle, t: u64)
    : (after: seq<Exchange>)
    ensures |before| < |after| && after[..|before|] == before && after[|before|].call == ProbeCall(pid, t)
    ensures var ctx := oracle(before, ProbeCall(pid, t)).handle;
      if ctx != 0 then |after| == |before| + 2 && after[|after| - 1].call == ReleaseContext(ctx)
      else |after| == |before| + 1
  {
    var reply := oracle(before, ProbeCall(pid, t));
    var log1 := before + [Exchange(ProbeCall(pid, t), reply)];
    if reply.handle != 0 then log1 + [Exchange(ReleaseContext(reply.handle), oracle(log1, ReleaseContext(reply.handle)))]
    else log1
  }

  /** The probe accepts the platform when the creation call succeeded. */
  ghost predicate ProbeAccepts(oracle: (seq<Exchange>, Call) -> Reply, before: seq<Exchange>, pid: Handle, t: u64)
  {
    oracle(before, ProbeCall(pid, t)).status == 0
  }

  /** `canCreatePlatformWithDeviceType(platformId, type)`: creates a context for the devices of
      that type on that platform, answers whether that succeeded, and releases the context
      whenever the driver returned one. */
  method CanCreate(drv: Driver, pid: Handle, t: u64) returns (b: bool)
    modifies drv
    ensures drv.log == ProbeLog(drv.oracle, old(drv.log), pid, t)
    ensures b <==> ProbeAccepts(drv.oracle, old(drv.log), pid, t)
  {
    var reply := drv.Issue(ProbeCall(pid, t));
    b := reply.status == 0;
    if reply.handle != 0 {
      var _ := drv.Issue(ReleaseContext(reply.handle));
    }
  }

  /** The outcome of the probes: the log after them, the position of the platform that
      accepted, if any, and the log just before its probe (`log` when none accepted). */
  datatype Search = Search(log: seq<Exchange>, found: Option<nat>, at: seq<Exchange>)

  /** The probes of `pids[from..]`, one after the other from `log`, up to and including the
      first that accepts. */
  ghost function ProbeFrom(oracle: (seq<Exchange>, Call) -> Reply, log: seq<Exchange>, pids: seq<Handle>, t: u64, from: nat)
    : (s: Search)
    ensures |log| <= |s.log| && s.log[..|log|] == log
    ensures s.found.Some? ==> from <= s.found.value < |pids|
    decreases |pids| - from
  {
    if from >= |pids| then Search(log, None, log)
    else
      var next := ProbeLog(oracle, log, pids[from], t);
      if ProbeAccepts(oracle, log, pids[from], t) then Search(next, Some(from), log)
      else
        var s := ProbeFrom(oracle, next, pids, t, from + 1);
        assert s.log[..|log|] == s.log[..|next|][..|log|];
        s
  }

  /** A platform the search finds is one whose probe accepted; when it finds none, every
      platform from `from` on was probed. */
  lemma {:induction false} ProbeFromFound(oracle: (seq<Exchange>, Call) -> Reply, log: seq<Exchange>,
                                          pids: seq<Handle>, t: u64, from: nat)
    ensures var s := ProbeFrom(oracle, log, pids, t, from);
      s.found.Some? ==> ProbeAccepts(oracle, s.at, pids[s.found.value], t)
                        && s.log == ProbeLog(oracle, s.at, pids[s.found.value], t)
    ensures var s := ProbeFrom(oracle, log, pids, t, from);
      s.found.None? && from <= |pids| ==> |s.log| >= |log| + |pids| - from
    decreases |pids| - from
  {
    if from < |pids| && !ProbeAccepts(oracle, log, pids[from], t) {
      ProbeFromFound(oracle, ProbeLog(oracle, log, pids[from], t), pids, t, from + 1);
    }
  }

  /** One probe of the search: a refused platform hands the search on to the next from the log
      its probe left; an accepted one ends it there. */
  lemma ProbeFromStep(oracle: (seq<Exchange>, Call) -> Reply, log: seq<Exchange>, pids: seq<Handle>, t: u64, i: nat)
    requires i < |pids|
    ensures !ProbeAccepts(oracle, log, pids[i], t) ==>
      ProbeFrom(oracle, log, pids, t, i) == ProbeFrom(oracle, ProbeLog(oracle, log, pids[i], t), pids, t, i + 1)
    ensures ProbeAccepts(oracle, log, pids[i], t) ==>
      ProbeFrom(oracle, log, pids, t, i) == Search(ProbeLog(oracle, log, pids[i], t), Some(i), log)
  {
  }

  /** The probes of `pids[from..to]` one after the other from `log`, when every one of them is
      refused: the log they leave; `None` as soon as one accepts. */
  ghost function Refusals(oracle: (seq<Exchange>, Call) -> Reply, log: seq<Exchange>, pids: seq<Handle>, t: u64,
                          from: nat, to: nat): Option<seq<Exchange>>
    requires from <= to <= |pids|
    decreases |pids| - from
  {
    if from == to then Some(log)
    else if ProbeAccepts(oracle, log, pids[from], t) then None
    else Refusals(oracle, ProbeLog(oracle, log, pids[from], t), pids, t, from + 1, to)
  }

  /** The search is a first match: every platform before the one found was probed and refused,
      and the log they left is the one the accepting probe started from; when none is found,
      every platform was probed and refused. */
  lemma {:induction false} ProbeFromFirst(oracle: (seq<Exchange>, Call) -> Reply, log: seq<Exchange>,
                                          pids: seq<Handle>, t: u64, from: nat)
    requires from <= |pids|
    ensures var s := ProbeFrom(oracle, log, pids, t, from);
      s.found.Some? ==> Refusals(oracle, log, pids, t, from, s.found.value) == Some(s.at)
    ensures var s := ProbeFrom(oracle, log, pids, t, from);
      s.found.None? ==> Refusals(oracle, log, pids, t, from, |pids|) == Some(s.log)
    decreases |pids| - from
  {
    if from < |pids| && !ProbeAccepts(oracle, log, pids[from], t) {
      ProbeFromFirst(oracle, ProbeLog(oracle, log, pids[from], t), pids, t, from + 1);
    }
  }

  // ---------------------------------------------------------------------------
  // The entry point

  class OpenCL {
    const platformIds: seq<Handle>

    constructor (platformIds: seq<Handle>)
      ensures this.platformIds == platformIds
    {
      this.platformIds := platformIds;
    }

    /** `OpenCL()` with its `enumeratePlatforms()`: the count call, then the listing call into
        a vector of that many ids, each through `throwOnCLError`. */
    static method Open(drv: Driver) returns (r: Result<OpenCL, Error>)
      modifies drv
      ensures Enumerated(drv.oracle, old(drv.log), drv.log)
      ensures r.Success? <==> |drv.log| == |old(drv.log)| + 2 && drv.log[|drv.log| - 1].reply.status == 0
      ensures r.Failure? ==> r.error == ClError(drv.log[|drv.log| - 1].reply.status)
      ensures r.Success? ==> fresh(r.value) && r.value.platformIds == PlatformIdsOf(drv.log)
    {
      var first := drv.Check(GetPlatformIDs(0));
      if first.Failure? {
        return Failure(first.error);
      }
      var numPlatforms := ToU32(first.value.value);
      var second := drv.Check(GetPlatformIDs(numPlatforms));
      if second.Failure? {
        return Failure(second.error);
      }
      var o := new OpenCL(Fill(second.value.values, numPlatforms));
      r := Success(o);
    }

    /** `numPlatforms()`: the size of the vector, cast to `uint`. */
    function NumPlatforms(): (n: u32)
      ensures |platformIds| < TWO_32 ==> n == |platformIds|
      ensures (|platformIds| - n) % TWO_32 == 0
    {
      ToU32(|platformIds|)
    }

    /** The probe loop of `createPlatform(type)`: probes the platforms in order and stops at
        the first that accepts the device type. */
    method FirstAccepting(drv: Driver, t: u64) returns (found: Option<nat>)
      modifies drv
      ensures var s := ProbeFrom(drv.oracle, old(drv.log), platformIds, t, 0);
        drv.log == s.log && found == s.found
    {
      var i := 0;
      while i < |platformIds|
        invariant 0 <= i <= |platformIds|
        invariant ProbeFrom(drv.oracle, old(drv.log), platformIds, t, 0) == ProbeFrom(drv.oracle, drv.log, platformIds, t, i)
      {
        ghost var prev := drv.log;
        var ok := CanCreate(drv, platformIds[i], t);
        ProbeFromStep(drv.oracle, prev, platformIds, t, i);
        if ok {
          assert ProbeFrom(drv.oracle, prev, platformIds, t, i) == Search(drv.log, Some(i), prev);
          return Some(i);
        }
        assert ProbeFrom(drv.oracle, prev, platformIds, t, i) == ProbeFrom(drv.oracle, drv.log, platformIds, t, i + 1);
        i := i + 1;
      }
      found := None;
    }

    /** `createPlatform(type)`: opens the first platform that accepts the device type; when
        none does, the error "Unable to find OpenCL platform". `probed` is the log after the
        probes. */
    method CreatePlatform(drv: Driver, t: u64)
      returns (r: Result<Platform, Error>, ghost probed: seq<Exchange>, ghost infoLog: seq<Exchange>,
               ghost listLog: seq<Exchange>, ghost groups: seq<seq<Reply>>)
      modifies drv
      ensures var s := ProbeFrom(drv.oracle, old(drv.log), platformIds, t, 0);
        && probed == s.log
        && (s.found.None? ==> drv.log == probed && r == Failure(Raised(NO_PLATFORM_MESSAGE)))
        && (s.found.Some? ==>
              PlatformRead(drv.oracle, probed, drv.log, platformIds[s.found.value], r, infoLog, listLog, groups))
      ensures r.Success? ==> fresh(r.value)
    {
      infoLog, listLog, groups := [], [], [];
      var found := FirstAccepting(drv, t);
      probed := drv.log;
      if found.None? {
        return Failure(Raised(NO_PLATFORM_MESSAGE)), probed, infoLog, listLog, groups;
      }
      r, infoLog, listLog, groups := Platform.Open(drv, platformIds[found.value]);
    }
  }
}
