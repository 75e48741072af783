/** The OpenCL runtime as the wrapper layer sees it: every `cl*` entry point is a
    `Call` record, the driver answers each call with a `Reply`, and the driver keeps
    the log of every exchange so far. How the driver answers is left abstract: an
    oracle that may depend on the whole history of calls and replies. */
module ClApi {
  import opened ClTypes
  import opened Wrappers
  import opened Errors

  /** A 3-element `size_t[3]` origin or region. */
  datatype Triple = Triple(x: u64, y: u64, z: u64)

  const ZERO_ORIGIN: Triple := Triple(0, 0, 0)

  /** cl_image_format */
  datatype ImageFormat = ImageFormat(channelOrder: u32, channelDataType: u32)

  /** cl_image_desc */
  datatype ImageDesc = ImageDesc(
    imageType: u32, width: u64, height: u64, depth: u64, arraySize: u64,
    rowPitch: u64, slicePitch: u64, numMipLevels: u32, numSamples: u32, buffer: Handle)

  /** The bytes `clSetKernelArg` is pointed at. */
  datatype ArgValue =
    | MemHandleArg(mem: Handle)      // &mem.id
    | UintArg(u: u32)                // &value, a uint
    | FloatArg(bits: bv32)           // &value, a float (its bit pattern)
    | RawArg(ptr: HostPtr)           // a caller-supplied pointer

  datatype PlatformParam = PlatformName | PlatformVendor | PlatformVersion | PlatformProfile | PlatformExtensions

  datatype DeviceParam =
    | DeviceVendor | DeviceType | MaxComputeUnits | MaxWorkItemDimensions | MaxWorkGroupSize
    | MaxWorkItemSizes | MaxClockFrequency | AddressBits | MaxMemAllocSize | GlobalMemSize
    | LocalMemSize | MaxConstantBufferSize | DeviceAvailable | CompilerAvailable | EndianLittle
    | ErrorCorrectionSupport | DeviceExtensions | DeviceName | DeviceVersion | DriverVersion
    | QueueProperties | ExecutionCapabilities | ProfilingTimerResolution | MaxConstantArgs
    | SingleFpConfig

  datatype WorkGroupParam = KernelWorkGroupSize | KernelLocalMemSize | KernelPrivateMemSize | KernelPreferredWorkGroupSizeMultiple

  datatype EventParam = EventReferenceCount | EventCommandExecutionStatus

  datatype ProfilingParam = ProfilingCommandQueued | ProfilingCommandStart | ProfilingCommandEnd

  /** The commands a queue can be asked to enqueue, with the arguments the wrappers pass. */
  datatype Command =
    | ReadBuffer(buffer: Handle, blocking: bool, offset: u64, size: u64, dest: HostPtr)
    | WriteBuffer(buffer: Handle, blocking: bool, offset: u64, size: u64, src: HostPtr)
    | WriteBufferRect(buffer: Handle, blocking: bool, bufferOrigin: Triple, hostOrigin: Triple, region: Triple,
                      bufferRowPitch: u64, bufferSlicePitch: u64, hostRowPitch: u64, hostSlicePitch: u64,
                      src: HostPtr)
    | Barrier
    | FillBuffer(buffer: Handle, pattern: seq<bv8>, patternSize: u64, offset: u64, size: u64)
    | CopyBuffer(src: Handle, dest: Handle, srcOffset: u64, destOffset: u64, size: u64)
    | CopyBufferToImage(src: Handle, dest: Handle, srcOffset: u64, destOrigin: Triple, region: Triple)
    | WriteImage(image: Handle, blocking: bool, origin: Triple, region: Triple, rowPitch: u64, slicePitch: u64, src: HostPtr)
    | ReadImage(image: Handle, blocking: bool, origin: Triple, region: Triple, rowPitch: u64, slicePitch: u64, dest: HostPtr)
    | AcquireGLObjects(numObjects: u32, objects: seq<Handle>)
    | ReleaseGLObjects(numObjects: u32, objects: seq<Handle>)
    | MapBuffer(buffer: Handle, blocking: bool, flags: u64, offset: u64, size: u64)
    | MapImage(image: Handle, blocking: bool, flags: u64, origin: Triple, region: Triple)
    | UnmapMemObject(mem: Handle, ptr: HostPtr)
    | NDRangeKernel(kernel: Handle, workDim: u32, globalOffset: Option<seq<u64>>,
                    globalSize: seq<u64>, localSize: Option<seq<u64>>)

  /** One call into the OpenCL runtime. A size argument is the byte size the caller passes. */
  datatype Call =
    | GetPlatformIDs(numEntries: u32)
    | GetPlatformInfo(platform: Handle, platformParam: PlatformParam, capacity: u64)
    | GetDeviceIDs(platform: Handle, deviceType: u64, numEntries: u32)
    | GetDeviceInfo(device: Handle, deviceParam: DeviceParam, size: u64)
    | CreateContext(properties: seq<u64>, devices: seq<Handle>)
    | CreateContextFromType(properties: seq<u64>, deviceType: u64)
    | ReleaseContext(context: Handle)
    | CreateCommandQueueWithProperties(context: Handle, device: Handle, properties: seq<u64>)
    | ReleaseCommandQueue(queue: Handle)
    | CreateBuffer(context: Handle, flags: u64, size: u64, hostPtr: HostPtr)
    | CreateImage(context: Handle, flags: u64, format: ImageFormat, desc: ImageDesc, hostPtr: HostPtr)
    | CreateFromGLTexture(context: Handle, flags: u64, target: u32, mipLevel: i32, texture: u32)
    | ReleaseMemObject(mem: Handle)
    | CreateProgramWithSource(context: Handle, source: string)
    | BuildProgram(program: Handle, devices: seq<Handle>, options: string)
    | GetProgramBuildLog(program: Handle, device: Handle, capacity: u64)
    | ReleaseProgram(program: Handle)
    | CreateKernel(program: Handle, kernelName: string)
    | SetKernelArg(kernel: Handle, index: u32, size: u64, value: ArgValue)
    | GetKernelWorkGroupInfo(kernel: Handle, device: Handle, workGroupParam: WorkGroupParam, size: u64)
    | ReleaseKernel(kernel: Handle)
    | Enqueue(queue: Handle, command: Command, numWaitEvents: u32, waitList: seq<Handle>, wantEvent: bool)
    | Flush(queue: Handle)
    | Finish(queue: Handle)
    | WaitForEvents(events: seq<Handle>)
    | GetEventInfo(event: Handle, eventParam: EventParam, size: u64)
    | GetEventProfilingInfo(event: Handle, profilingParam: ProfilingParam, size: u64)
    | RetainEvent(event: Handle)
    | ReleaseEvent(event: Handle)
    | CreateUserEvent(context: Handle)
    | SetUserEventStatus(event: Handle, executionStatus: i32)

  /** What the driver hands back: the status (returned or written to `errcode_ret`), the
      object a create call returns (or the mapped pointer), the event written to `*event`,
      scalar out-values, an array out-value and a character buffer out-value. */
  datatype Reply = Reply(status: i32, handle: Handle, event: Handle,
                         value: u64, value2: u64, values: seq<u64>, text: string)

  datatype Exchange = Exchange(call: Call, reply: Reply)

  /** `throwOnCLError` applied to a reply's status. */
  function Checked(reply: Reply): (r: Result<Reply, Error>)
    ensures r.Success? <==> reply.status == 0
    ensures r.Success? ==> r.value == reply
    ensures r.Failure? ==> ThrowOnCLError(reply.status) == Fail(r.error)
  {
    if reply.status == 0 then Success(reply) else Failure(ClError(reply.status))
  }

  /** The value a wrapper returns after `throwOnCLError(reply.status)`: raised on a nonzero status. */
  function OnSuccess<T>(reply: Reply, value: T): (r: Result<T, Error>)
    ensures r.Success? <==> reply.status == 0
    ensures r.Success? ==> r.value == value
    ensures r.Failure? ==> ThrowOnCLError(reply.status) == Fail(r.error)
  {
    if reply.status == 0 then Success(value) else Failure(ClError(reply.status))
  }

  /** The array a caller sizes to `n` entries and passes to the driver to fill, read back
      after the call: the entries the driver wrote, in its order, and 0 where it wrote none (as
      the value-initialising `resize` leaves them; a `new T[n]` array would hold whatever was in
      memory there). */
  function Fill(values: seq<u64>, n: nat): (r: seq<u64>)
    ensures |r| == n
    ensures n <= |values| ==> r == values[..n]
    ensures forall i :: |values| <= i < n ==> r[i] == 0
  {
    seq(n, i requires 0 <= i < n => if i < |values| then values[i] else 0)
  }

  class Driver {
    /** Every exchange so far, oldest first. */
    var log: seq<Exchange>
    /** How the driver answers a call given everything that happened before. */
    const oracle: (seq<Exchange>, Call) -> Reply

    constructor (oracle: (seq<Exchange>, Call) -> Reply)
      ensures log == [] && this.oracle == oracle
    {
      log := [];
      this.oracle := oracle;
    }

    /** Issues one call; the driver's answer depends only on the history. */
    method Issue(c: Call) returns (r: Reply)
      modifies this
      ensures r == oracle(old(log), c)
      ensures log == old(log) + [Exchange(c, r)]
    {
      r := oracle(log, c);
      log := log + [Exchange(c, r)];
    }

    /** Issues one call and passes its status through `throwOnCLError`. */
    method Check(c: Call) returns (r: Result<Reply, Error>)
      modifies this
      ensures log == old(log) + [Exchange(c, oracle(old(log), c))]
      ensures r == Checked(oracle(old(log), c))
    {
      var reply := Issue(c);
      r := Checked(reply);
    }
  }

  /** The driver's log grew by exactly the exchange for `c`, answered by the oracle. */
  twostate predicate Appended(drv: Driver, c: Call)
    reads drv
  {
    drv.log == old(drv.log) + [Exchange(c, drv.oracle(old(drv.log), c))]
  }
}
