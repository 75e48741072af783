/** The event helpers: waiting, reference counting, user-event status and the
    profiling time spans. */
module Events {
  import opened ClTypes
  import opened Wrappers
  import opened Errors
  import opened ClApi

  // ---------------------------------------------------------------------------
  // Unsigned 64-bit differences

  /** `end - start` on `ulong`: wraps around when end < start. */
  function WrappingSub(end: u64, start: u64): (r: u64)
    ensures start <= end ==> r == end - start
    ensures end < start ==> r == end - start + TWO_64
  {
    (end - start) % TWO_64
  }

  /** Adding the difference back to the start gives the end, modulo 2^64. */
  lemma WrappingSubInverse(end: u64, start: u64)
    ensures (start + WrappingSub(end, start)) % TWO_64 == end
  {
    var r := WrappingSub(end, start);
    if start <= end {
      assert start + r == end;
    } else {
      assert start + r == end + TWO_64;
    }
  }

  /** The difference is the only 64-bit value that does so. */
  lemma WrappingSubUnique(end: u64, start: u64, d: u64)
    requires (start + d) % TWO_64 == end
    ensures d == WrappingSub(end, start)
  {
    if start + d < TWO_64 {
      assert start + d == end;
    } else {
      assert start + d - TWO_64 == end;
    }
  }

  // ---------------------------------------------------------------------------
  // An abstract reference counter

  /** The reference count of event `e` after the calls of a stretch of the log, starting
      from `count`: each release of `e` takes one off, each retain of `e` adds one. */
  function RefCountAfter(count: int, log: seq<Exchange>, e: Handle): int
    decreases |log|
  {
    if log == [] then count
    else
      var next :=
        match log[0].call
        case ReleaseEvent(x) => if x == e then count - 1 else count
        case RetainEvent(x) => if x == e then count + 1 else count
        case _ => count;
      RefCountAfter(next, log[1..], e)
  }

  /** n releases of `e` take n off its count. */
  lemma {:induction false} ReleasesDrain(count: int, log: seq<Exchange>, e: Handle)
    requires forall k :: 0 <= k < |log| ==> log[k].call == ReleaseEvent(e)
    ensures RefCountAfter(count, log, e) == count - |log|
    decreases |log|
  {
    if log != [] {
      ReleasesDrain(count - 1, log[1..], e);
    }
  }

  /** A retain followed by a release leaves the count where it was. */
  lemma RetainThenRelease(count: int, e: Handle, r1: Reply, r2: Reply)
    ensures RefCountAfter(count, [Exchange(RetainEvent(e), r1), Exchange(ReleaseEvent(e), r2)], e) == count
  {
    var log := [Exchange(RetainEvent(e), r1), Exchange(ReleaseEvent(e), r2)];
    assert log[1..] == [Exchange(ReleaseEvent(e), r2)];
    assert RefCountAfter(count + 1, log[1..], e) == RefCountAfter(count, [], e);
  }

  // ---------------------------------------------------------------------------
  // The helpers

  method WaitFor(drv: Driver, event: Handle) returns (o: Outcome<Error>)
    modifies drv
    ensures Appended(drv, WaitForEvents([event]))
    ensures o == ThrowOnCLError(drv.oracle(old(drv.log), WaitForEvents([event])).status)
  {
    var reply := drv.Issue(WaitForEvents([event]));
    o := ThrowOnCLError(reply.status);
  }

  /** The CL_EVENT_REFERENCE_COUNT of the event, read as a `uint`. */
  method GetReferenceCount(drv: Driver, e: Handle) returns (r: Result<u32, Error>)
    modifies drv
    ensures Appended(drv, GetEventInfo(e, EventReferenceCount, SIZEOF_UINT))
    ensures var reply := drv.oracle(old(drv.log), GetEventInfo(e, EventReferenceCount, SIZEOF_UINT));
      r == OnSuccess(reply, ToU32(reply.value))
  {
    var reply := drv.Issue(GetEventInfo(e, EventReferenceCount, SIZEOF_UINT));
    r := OnSuccess(reply, ToU32(reply.value));
  }

  method Release(drv: Driver, e: Handle) returns (o: Outcome<Error>)
    modifies drv
    ensures Appended(drv, ReleaseEvent(e))
    ensures o == ThrowOnCLError(drv.oracle(old(drv.log), ReleaseEvent(e)).status)
  {
    var reply := drv.Issue(ReleaseEvent(e));
    o := ThrowOnCLError(reply.status);
  }

  method Retain(drv: Driver, e: Handle) returns (o: Outcome<Error>)
    modifies drv
    ensures Appended(drv, RetainEvent(e))
    ensures o == ThrowOnCLError(drv.oracle(old(drv.log), RetainEvent(e)).status)
  {
    var reply := drv.Issue(RetainEvent(e));
    o := ThrowOnCLError(reply.status);
  }

  /** How many times a `for(i = 0; i < n; i++)` loop runs. */
  function Max0(n: int): nat { if n > 0 then n else 0 }

  /** From `base` on, `log` holds only releases of `e`, each answered by the driver given the
      log before it. */
  ghost predicate ReleasesFrom(oracle: (seq<Exchange>, Call) -> Reply, base: seq<Exchange>, log: seq<Exchange>, e: Handle)
  {
    && |base| <= |log| && log[..|base|] == base
    && forall k :: |base| <= k < |log| ==> log[k] == Exchange(ReleaseEvent(e), oracle(log[..k], ReleaseEvent(e)))
  }

  /** One more release issued. */
  lemma ReleasesFromStep(oracle: (seq<Exchange>, Call) -> Reply, base: seq<Exchange>, log: seq<Exchange>, e: Handle)
    requires ReleasesFrom(oracle, base, log, e)
    ensures ReleasesFrom(oracle, base, log + [Exchange(ReleaseEvent(e), oracle(log, ReleaseEvent(e)))], e)
  {
    var next := log + [Exchange(ReleaseEvent(e), oracle(log, ReleaseEvent(e)))];
    assert next[..|log|] == log;
    assert next[..|base|] == log[..|base|];
    forall k | |base| <= k < |next|
      ensures next[k] == Exchange(ReleaseEvent(e), oracle(next[..k], ReleaseEvent(e)))
    {
      if k < |log| {
        assert next[..k] == log[..k];
      }
    }
  }

  /** `releaseAll`: reads the reference count once, then releases the event that many
      times, each release through `throwOnCLError`, so the first failing release is the last
      call. It passes exactly when the count was read and every release succeeded; then the
      abstract counter, started at the count read, ends at 0. */
  method ReleaseAll(drv: Driver, e: Handle) returns (o: Outcome<Error>)
    modifies drv
    ensures var c := GetEventInfo(e, EventReferenceCount, SIZEOF_UINT);
      var reply := drv.oracle(old(drv.log), c);
      var base := old(drv.log) + [Exchange(c, reply)];
      var refCount := ToI32(ToU32(reply.value));
      && |base| <= |drv.log| <= |base| + Max0(refCount)
      && ReleasesFrom(drv.oracle, base, drv.log, e)
      && (forall k :: |base| <= k < |drv.log| - 1 ==> drv.log[k].reply.status == 0)
      && (reply.status != 0 ==> |drv.log| == |base| && o == Fail(ClError(reply.status)))
      && (o.Pass? <==> reply.status == 0 && |drv.log| == |base| + Max0(refCount)
                       && (|drv.log| == |base| || drv.log[|drv.log| - 1].reply.status == 0))
      && (o.Pass? && refCount >= 0 ==> RefCountAfter(refCount, drv.log[|base|..], e) == 0)
      && (o.Fail? && reply.status == 0 ==>
            |drv.log| > |base| && drv.log[|drv.log| - 1].reply.status != 0
            && o == Fail(ClError(drv.log[|drv.log| - 1].reply.status)))
  {
    var count := GetReferenceCount(drv, e);
    if count.Failure? {
      return Fail(count.error);
    }
    ghost var base := drv.log;
    // the `uint` count is stored in an `int`
    var refCount: i32 := ToI32(count.value);
    var i := 0;
    while i < refCount
      invariant 0 <= i <= Max0(refCount)
      invariant |drv.log| == |base| + i && ReleasesFrom(drv.oracle, base, drv.log, e)
      invariant forall k :: |base| <= k < |drv.log| ==> drv.log[k].reply.status == 0
    {
      ghost var prev := drv.log;
      var reply := drv.Issue(ReleaseEvent(e));
      ReleasesFromStep(drv.oracle, base, prev, e);
      if reply.status != 0 {
        return ThrowOnCLError(reply.status);
      }
      i := i + 1;
    }
    ReleasesDrain(refCount, drv.log[|base|..], e);
    o := Pass;
  }

  /** The two profiling counters `first` and `second` of the event, and `second - first` as a `ulong`. */
  method ProfilingSpan(drv: Driver, event: Handle, first: ProfilingParam, second: ProfilingParam)
    returns (r: Result<u64, Error>)
    modifies drv
    ensures var c1 := GetEventProfilingInfo(event, first, SIZEOF_ULONG);
      var reply1 := drv.oracle(old(drv.log), c1);
      var log1 := old(drv.log) + [Exchange(c1, reply1)];
      var c2 := GetEventProfilingInfo(event, second, SIZEOF_ULONG);
      var reply2 := drv.oracle(log1, c2);
      if reply1.status != 0 then
        drv.log == log1 && r == Failure(ClError(reply1.status))
      else
        drv.log == log1 + [Exchange(c2, reply2)] && r == OnSuccess(reply2, WrappingSub(reply2.value, reply1.value))
  {
    var start :- drv.Check(GetEventProfilingInfo(event, first, SIZEOF_ULONG));
    var end := drv.Issue(GetEventProfilingInfo(event, second, SIZEOF_ULONG));
    r := OnSuccess(end, WrappingSub(end.value, start.value));
  }

  /** `getRunTime`: COMMAND_END - COMMAND_START. */
  method GetRunTime(drv: Driver, event: Handle) returns (r: Result<u64, Error>)
    modifies drv
    ensures var c1 := GetEventProfilingInfo(event, ProfilingCommandStart, SIZEOF_ULONG);
      var reply1 := drv.oracle(old(drv.log), c1);
      var log1 := old(drv.log) + [Exchange(c1, reply1)];
      var c2 := GetEventProfilingInfo(event, ProfilingCommandEnd, SIZEOF_ULONG);
      var reply2 := drv.oracle(log1, c2);
      if reply1.status != 0 then
        drv.log == log1 && r == Failure(ClError(reply1.status))
      else
        drv.log == log1 + [Exchange(c2, reply2)] && r == OnSuccess(reply2, WrappingSub(reply2.value, reply1.value))
  {
    r := ProfilingSpan(drv, event, ProfilingCommandStart, ProfilingCommandEnd);
  }

  /** `getQueuedTime`: COMMAND_START - COMMAND_QUEUED. */
  method GetQueuedTime(drv: Driver, event: Handle) returns (r: Result<u64, Error>)
    modifies drv
    ensures var c1 := GetEventProfilingInfo(event, ProfilingCommandQueued, SIZEOF_ULONG);
      var reply1 := drv.oracle(old(drv.log), c1);
      var log1 := old(drv.log) + [Exchange(c1, reply1)];
      var c2 := GetEventProfilingInfo(event, ProfilingCommandStart, SIZEOF_ULONG);
      var reply2 := drv.oracle(log1, c2);
      if reply1.status != 0 then
        drv.log == log1 && r == Failure(ClError(reply1.status))
      else
        drv.log == log1 + [Exchange(c2, reply2)] && r == OnSuccess(reply2, WrappingSub(reply2.value, reply1.value))
  {
    r := ProfilingSpan(drv, event, ProfilingCommandQueued, ProfilingCommandStart);
  }

  /** `createUserEvent` on the context's handle. */
  method CreateUserEventOn(drv: Driver, context: Handle) returns (r: Result<Handle, Error>)
    modifies drv
    ensures Appended(drv, CreateUserEvent(context))
    ensures var reply := drv.oracle(old(drv.log), CreateUserEvent(context));
      r == OnSuccess(reply, reply.handle)
  {
    var reply := drv.Issue(CreateUserEvent(context));
    r := OnSuccess(reply, reply.handle);
  }

  /** `setStatus`: the status goes to the driver unchanged. */
  method SetStatus(drv: Driver, e: Handle, status: i32) returns (o: Outcome<Error>)
    modifies drv
    ensures Appended(drv, SetUserEventStatus(e, status))
    ensures o == ThrowOnCLError(drv.oracle(old(drv.log), SetUserEventStatus(e, status)).status)
  {
    var reply := drv.Issue(SetUserEventStatus(e, status));
    o := ThrowOnCLError(reply.status);
  }

  /** `getStatus`: the execution status the driver reports, read as an `int`, when the query succeeds. */
  method GetStatus(drv: Driver, e: Handle) returns (r: Result<i32, Error>)
    modifies drv
    ensures Appended(drv, GetEventInfo(e, EventCommandExecutionStatus, SIZEOF_INT))
    ensures var reply := drv.oracle(old(drv.log), GetEventInfo(e, EventCommandExecutionStatus, SIZEOF_INT));
      r == OnSuccess(reply, ToI32(reply.value))
  {
    var reply := drv.Issue(GetEventInfo(e, EventCommandExecutionStatus, SIZEOF_INT));
    r := OnSuccess(reply, ToI32(reply.value));
  }
}
