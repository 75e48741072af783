/** `CommandQueue`: each enqueue wrapper derives the arguments of one
    `clEnqueue*` call (whole-object sizes and shapes, zero origins, the wait-list
    count) and raises when the driver reports a nonzero status. */
module Queues {
  import opened ClTypes
  import opened Wrappers
  import opened Errors
  import opened ClApi
  import opened MemObjects
  import opened Kernels

  /** The events a command waits for, and whether the caller wants the command's event back. */
  datatype EventArgs = EventArgs(waitList: seq<Handle>, wantEvent: bool)
  {
    /** `(uint)waitList.size()` */
    function NumWaitEvents(): (n: u32)
      ensures |waitList| < TWO_32 ==> n == |waitList|
      ensures (|waitList| - n) % TWO_32 == 0
    {
      ToU32(|waitList|)
    }
  }

  /** The default `EventArgs{}`: no wait list, no event wanted. */
  const NO_EVENTS: EventArgs := EventArgs([], false)

  /** The one call an enqueue wrapper issues: the command, then the wait list and its length. */
  function EnqueueCall(queue: Handle, cmd: Command, args: EventArgs): (c: Call)
    ensures c.Enqueue? && c.command == cmd
    ensures c.waitList == args.waitList && c.wantEvent == args.wantEvent
    ensures |args.waitList| < TWO_32 ==> c.numWaitEvents == |args.waitList|
  {
    Enqueue(queue, cmd, args.NumWaitEvents(), args.waitList, args.wantEvent)
  }

  /** The outcome of an enqueue: raised on a nonzero status, otherwise the event the driver
      wrote to `*args.event` when the caller asked for one. */
  function Enqueued(reply: Reply, args: EventArgs): (r: Result<Option<Handle>, Error>)
    ensures r.Success? <==> reply.status == 0
    ensures r.Failure? ==> r.error == ClError(reply.status)
    ensures r.Success? ==> (r.value.Some? <==> args.wantEvent)
    ensures r.Success? && r.value.Some? ==> r.value.value == reply.event
  {
    if reply.status != 0 then Failure(ClError(reply.status))
    else if args.wantEvent then Success(Some(reply.event))
    else Success(None)
  }

  /** What `enqueueMapBuffer` returns: the mapped pointer, and the event if one was wanted. */
  datatype Mapping = Mapping(ptr: HostPtr, event: Option<Handle>)

  /** What `enqueueMapImage` returns, with the row and slice pitches the driver wrote. */
  datatype ImageMapping = ImageMapping(ptr: HostPtr, rowPitch: u64, slicePitch: u64, event: Option<Handle>)

  /** `(flags & ~(CL_MAP_READ | CL_MAP_WRITE)) == 0` */
  predicate MapFlagsValid(flags: u64)
  {
    AsBits(flags) & !(CL_MAP_READ | CL_MAP_WRITE) == 0
  }

  /** The allowed map flags are exactly 0, READ, WRITE and READ|WRITE. */
  lemma MapFlagsValidValues(flags: u64)
    ensures MapFlagsValid(flags) <==> flags < 4
  {
    var b := AsBits(flags);
    if flags < 4 {
      assert b < 4;
    } else {
      assert b >= 4;
    }
  }

  /** The local work sizes the driver is given: null when the caller gave none. */
  function LocalSizes(localSizes: seq<u64>): (r: Option<seq<u64>>)
    ensures r.None? <==> |localSizes| == 0
    ensures r.Some? ==> r.value == localSizes
  {
    if |localSizes| == 0 then None else Some(localSizes)
  }

  /** The `push_back` loop that collects the handles of GL-shared objects, in input order. */
  method MemIds(objects: seq<MemObject>) returns (ids: seq<Handle>)
    ensures |ids| == |objects|
    ensures forall i :: 0 <= i < |objects| ==> ids[i] == objects[i].id
  {
    ids := [];
    for i := 0 to |objects|
      invariant |ids| == i
      invariant forall j :: 0 <= j < i ==> ids[j] == objects[j].id
    {
      ids := ids + [objects[i].id];
    }
  }

  /** The one enqueue call for `cmd` was issued and `r` is its outcome. */
  twostate predicate Submitted(drv: Driver, queue: Handle, cmd: Command, args: EventArgs, new r: Result<Option<Handle>, Error>)
    reads drv
  {
    && Appended(drv, EnqueueCall(queue, cmd, args))
    && r == Enqueued(drv.oracle(old(drv.log), EnqueueCall(queue, cmd, args)), args)
  }

  datatype CommandQueue = CommandQueue(id: Handle)
  {
    method Submit(drv: Driver, cmd: Command, args: EventArgs) returns (r: Result<Option<Handle>, Error>)
      modifies drv
      ensures Submitted(drv, id, cmd, args, r)
    {
      var reply := drv.Issue(EnqueueCall(id, cmd, args));
      r := Enqueued(reply, args);
    }

    /** The destructor: releases the queue when its handle is not null. */
    method Destroy(drv: Driver)
      modifies drv
      ensures id != 0 ==> Appended(drv, ReleaseCommandQueue(id))
      ensures id == 0 ==> drv.log == old(drv.log)
    {
      if id != 0 {
        var _ := drv.Issue(ReleaseCommandQueue(id));
      }
    }

    /** Read a byte range of a buffer into host memory. */
    method EnqueueReadBufferRange(drv: Driver, buf: Buffer, dest: HostPtr, readOffset: u64, numBytes: u64,
                                  block: bool, args: EventArgs := NO_EVENTS) returns (r: Result<Option<Handle>, Error>)
      modifies drv
      ensures Submitted(drv, id, ReadBuffer(buf.id, block, readOffset, numBytes, dest), args, r)
    {
      r := Submit(drv, ReadBuffer(buf.id, block, readOffset, numBytes, dest), args);
    }

    /** Read the entire buffer: the ranged read from offset 0 for `buf.size` bytes. */
    method EnqueueReadBuffer(drv: Driver, buf: Buffer, dest: HostPtr, block: bool, args: EventArgs := NO_EVENTS)
      returns (r: Result<Option<Handle>, Error>)
      modifies drv
      ensures Submitted(drv, id, ReadBuffer(buf.id, block, 0, buf.size, dest), args, r)
    {
      r := EnqueueReadBufferRange(drv, buf, dest, 0, buf.size, block, args);
    }

    method EnqueueWriteBufferRange(drv: Driver, dest: Buffer, src: HostPtr, destOffset: u64, numBytes: u64,
                                   block: bool := false, args: EventArgs := NO_EVENTS) returns (r: Result<Option<Handle>, Error>)
      modifies drv
      ensures Submitted(drv, id, WriteBuffer(dest.id, block, destOffset, numBytes, src), args, r)
    {
      r := Submit(drv, WriteBuffer(dest.id, block, destOffset, numBytes, src), args);
    }

    /** Write the entire buffer: the ranged write to offset 0 of `dest.size` bytes. */
    method EnqueueWriteBuffer(drv: Driver, dest: Buffer, src: HostPtr, block: bool := false, args: EventArgs := NO_EVENTS)
      returns (r: Result<Option<Handle>, Error>)
      modifies drv
      ensures Submitted(drv, id, WriteBuffer(dest.id, block, 0, dest.size, src), args, r)
    {
      r := EnqueueWriteBufferRange(drv, dest, src, 0, dest.size, block, args);
    }

    /** A one-row rectangular write: origin (destOffset, 0, 0), region (numBytes, 1, 1), all pitches 0. */
    method EnqueueWriteBufferRect(drv: Driver, dest: Buffer, destOffset: u64, hostPtr: HostPtr, numBytes: u64,
                                  block: bool := false, args: EventArgs := NO_EVENTS) returns (r: Result<Option<Handle>, Error>)
      modifies drv
      ensures Submitted(drv, id, WriteBufferRect(dest.id, block, Triple(destOffset, 0, 0), ZERO_ORIGIN,
                                                 Triple(numBytes, 1, 1), 0, 0, 0, 0, hostPtr), args, r)
    {
      var bufferOrigin := Triple(destOffset, 0, 0);
      var hostOrigin := Triple(0, 0, 0);
      var region := Triple(numBytes, 1, 1);
      r := Submit(drv, WriteBufferRect(dest.id, block, bufferOrigin, hostOrigin, region, 0, 0, 0, 0, hostPtr), args);
    }

    method EnqueueBarrier(drv: Driver, args: EventArgs := NO_EVENTS) returns (r: Result<Option<Handle>, Error>)
      modifies drv
      ensures Submitted(drv, id, Barrier, args, r)
    {
      r := Submit(drv, Barrier, args);
    }

    /** Fill the whole buffer with a value whose object representation is `pattern`
        (sizeof(T) == |pattern| bytes). */
    method EnqueueFillBuffer(drv: Driver, buffer: Buffer, pattern: seq<bv8>, args: EventArgs := NO_EVENTS)
      returns (r: Result<Option<Handle>, Error>)
      requires |pattern| < TWO_64
      modifies drv
      ensures Submitted(drv, id, FillBuffer(buffer.id, pattern, |pattern|, 0, buffer.size), args, r)
    {
      r := Submit(drv, FillBuffer(buffer.id, pattern, |pattern|, 0, buffer.size), args);
    }

    method EnqueueCopyBufferRange(drv: Driver, src: Buffer, srcOffset: u64, dest: Buffer, destOffset: u64,
                                  numBytes: u64, args: EventArgs := NO_EVENTS) returns (r: Result<Option<Handle>, Error>)
      modifies drv
      ensures Submitted(drv, id, CopyBuffer(src.id, dest.id, srcOffset, destOffset, numBytes), args, r)
    {
      r := Submit(drv, CopyBuffer(src.id, dest.id, srcOffset, destOffset, numBytes), args);
    }

    /** Copy a whole buffer into one of the same size. */
    method EnqueueCopyBuffer(drv: Driver, src: Buffer, dest: Buffer, args: EventArgs := NO_EVENTS)
      returns (r: Result<Option<Handle>, Error>)
      requires src.size == dest.size
      modifies drv
      ensures Submitted(drv, id, CopyBuffer(src.id, dest.id, 0, 0, src.size), args, r)
    {
      r := EnqueueCopyBufferRange(drv, src, 0, dest, 0, src.size, args);
    }

    /** Copy from buffer offset 0 into the width x height region at the image's origin. */
    method EnqueueCopyBufferToImage(drv: Driver, src: Buffer, dest: Image, width: u32, height: u32,
                                    args: EventArgs := NO_EVENTS) returns (r: Result<Option<Handle>, Error>)
      modifies drv
      ensures Submitted(drv, id, CopyBufferToImage(src.id, dest.id, 0, ZERO_ORIGIN, Triple(width, height, 1)), args, r)
    {
      r := Submit(drv, CopyBufferToImage(src.id, dest.id, 0, Triple(0, 0, 0), Triple(width, height, 1)), args);
    }

    /** Write the whole image: origin (0, 0, 0), region (width, height, 1), pitches 0. */
    method EnqueueWriteImage(drv: Driver, image: Image, hostPtr: HostPtr, block: bool := false, args: EventArgs := NO_EVENTS)
      returns (r: Result<Option<Handle>, Error>)
      modifies drv
      ensures Submitted(drv, id, WriteImage(image.id, block, ZERO_ORIGIN, Triple(image.width, image.height, 1), 0, 0, hostPtr), args, r)
    {
      r := Submit(drv, WriteImage(image.id, block, Triple(0, 0, 0), Triple(image.width, image.height, 1), 0, 0, hostPtr), args);
    }

    /** Read the whole image: origin (0, 0, 0), region (width, height, 1), pitches 0. */
    method EnqueueReadImage(drv: Driver, image: Image, hostPtr: HostPtr, block: bool := false, args: EventArgs := NO_EVENTS)
      returns (r: Result<Option<Handle>, Error>)
      modifies drv
      ensures Submitted(drv, id, ReadImage(image.id, block, ZERO_ORIGIN, Triple(image.width, image.height, 1), 0, 0, hostPtr), args, r)
    {
      r := Submit(drv, ReadImage(image.id, block, Triple(0, 0, 0), Triple(image.width, image.height, 1), 0, 0, hostPtr), args);
    }

    /** Acquire GL-shared objects: their handles in input order, with `(uint)objects.size()`. */
    method EnqueueAcquireGLObjects(drv: Driver, objects: seq<MemObject>, args: EventArgs := NO_EVENTS)
      returns (r: Result<Option<Handle>, Error>)
      modifies drv
      ensures exists ids ::
        && |ids| == |objects| && (forall i :: 0 <= i < |objects| ==> ids[i] == objects[i].id)
        && Submitted(drv, id, AcquireGLObjects(ToU32(|objects|), ids), args, r)
    {
      var ids := MemIds(objects);
      r := Submit(drv, AcquireGLObjects(ToU32(|objects|), ids), args);
    }

    /** Release GL-shared objects: their handles in input order, with `(uint)objects.size()`. */
    method EnqueueReleaseGLObjects(drv: Driver, objects: seq<MemObject>, args: EventArgs := NO_EVENTS)
      returns (r: Result<Option<Handle>, Error>)
      modifies drv
      ensures exists ids ::
        && |ids| == |objects| && (forall i :: 0 <= i < |objects| ==> ids[i] == objects[i].id)
        && Submitted(drv, id, ReleaseGLObjects(ToU32(|objects|), ids), args, r)
    {
      var ids := MemIds(objects);
      r := Submit(drv, ReleaseGLObjects(ToU32(|objects|), ids), args);
    }

    /** Map a byte range of a buffer; only READ and WRITE may be among the flags. */
    method EnqueueMapBuffer(drv: Driver, buf: Buffer, offset: u64, numBytes: u64, flags: u64, block: bool := false,
                            args: EventArgs := NO_EVENTS) returns (r: Result<Mapping, Error>)
      requires MapFlagsValid(flags)
      modifies drv
      ensures var c := EnqueueCall(id, MapBuffer(buf.id, block, flags, offset, numBytes), args);
        && Appended(drv, c)
        && var reply := drv.oracle(old(drv.log), c);
        && (r.Success? <==> reply.status == 0)
        && (r.Failure? ==> r.error == ClError(reply.status))
        && (r.Success? ==> r.value == Mapping(reply.handle, if args.wantEvent then Some(reply.event) else None))
    {
      var c := EnqueueCall(id, MapBuffer(buf.id, block, flags, offset, numBytes), args);
      var reply := drv.Issue(c);
      var ptr := reply.handle;
      var ok :- Checked(reply);
      r := Success(Mapping(ptr, if args.wantEvent then Some(reply.event) else None));
    }

    /** Map the whole image (origin (0, 0, 0), region (width, height, 1)); the driver also
        writes the row and slice pitches. */
    method EnqueueMapImage(drv: Driver, img: Image, flags: u64, block: bool := false, args: EventArgs := NO_EVENTS)
      returns (r: Result<ImageMapping, Error>)
      requires MapFlagsValid(flags)
      modifies drv
      ensures var c := EnqueueCall(id, MapImage(img.id, block, flags, ZERO_ORIGIN, Triple(img.width, img.height, 1)), args);
        && Appended(drv, c)
        && var reply := drv.oracle(old(drv.log), c);
        && (r.Success? <==> reply.status == 0)
        && (r.Failure? ==> r.error == ClError(reply.status))
        && (r.Success? ==> r.value == ImageMapping(reply.handle, reply.value, reply.value2,
                                                   if args.wantEvent then Some(reply.event) else None))
    {
      var c := EnqueueCall(id, MapImage(img.id, block, flags, Triple(0, 0, 0), Triple(img.width, img.height, 1)), args);
      var reply := drv.Issue(c);
      var ok :- Checked(reply);
      r := Success(ImageMapping(reply.handle, reply.value, reply.value2,
                                if args.wantEvent then Some(reply.event) else None));
    }

    method EnqueueUnmapMemObject(drv: Driver, mem: MemObject, ptr: HostPtr, args: EventArgs := NO_EVENTS)
      returns (r: Result<Option<Handle>, Error>)
      modifies drv
      ensures Submitted(drv, id, UnmapMemObject(mem.id, ptr), args, r)
    {
      r := Submit(drv, UnmapMemObject(mem.id, ptr), args);
    }

    /** Run a kernel over at most 3 dimensions; no global offset, and null local sizes
        (the driver chooses) when none are given. */
    method EnqueueKernel(drv: Driver, kernel: Kernel, globalSizes: seq<u64>, localSizes: seq<u64> := [], args: EventArgs := NO_EVENTS)
      returns (r: Result<Option<Handle>, Error>)
      requires |globalSizes| <= 3
      requires |localSizes| == 0 || |localSizes| == |globalSizes|
      modifies drv
      ensures Submitted(drv, id, NDRangeKernel(kernel.id, |globalSizes|, None, globalSizes, LocalSizes(localSizes)), args, r)
    {
      var local := LocalSizes(localSizes);
      r := Submit(drv, NDRangeKernel(kernel.id, ToU32(|globalSizes|), None, globalSizes, local), args);
    }

    method Flush(drv: Driver) returns (o: Outcome<Error>)
      modifies drv
      ensures Appended(drv, Call.Flush(id))
      ensures o == ThrowOnCLError(drv.oracle(old(drv.log), Call.Flush(id)).status)
    {
      var reply := drv.Issue(Call.Flush(id));
      o := ThrowOnCLError(reply.status);
    }

    method Finish(drv: Driver) returns (o: Outcome<Error>)
      modifies drv
      ensures Appended(drv, Call.Finish(id))
      ensures o == ThrowOnCLError(drv.oracle(old(drv.log), Call.Finish(id)).status)
    {
      var reply := drv.Issue(Call.Finish(id));
      o := ThrowOnCLError(reply.status);
    }
  }
}
