# OpenCL host-API wrappers in Dafny

A model of the C++ wrapper layer over the OpenCL 2.0 host API: the `OpenCL` entry point
that enumerates platforms and probes them for a device type, `Platform` with its descriptive
strings and its devices, `Device` with its 25 capability queries and vendor classification,
`Context`, `CommandQueue` with its enqueue wrappers, `Program` with its build options and
build log, `Kernel` with its argument setters and work-group queries, the event helpers, the
memory-object records, and `throwOnCLError` with its error messages.

The OpenCL runtime itself is outside the model. It is a `Driver` object (`ClApi.Driver`)
holding the log of every call made so far and an `oracle` that answers a call given that log.
Every wrapper is a method that issues calls through the driver. Its contract states the calls
in order and the arguments each one carries. It also states how the replies become the
wrapper's result: a value, or the error `throwOnCLError` raises. A C++ exception is a
`Failure`/`Fail` result carrying the error. The C++ default arguments (`EventArgs args = {}`,
`block = CL_FALSE`, `localSizes = {}`, `size = 262144L`, `options = {}`, `props = {}`,
`hostPtr = nullptr`, `mipLevel = 0`) are default parameter values of the same methods.

Modules, one per source file:

- `ClTypes`: fixed-width integers, the casts the code performs, and the constants of the
  Khronos OpenCL 2.0 headers.
- `Errors` and `Text`: `throwOnCLError`, plus decimal formatting and string search.
- `ClApi`: the calls, the replies and the driver.
- `WorkGroup`: `getSquareWorkGroupSize2D`.
- `Properties`: zero-terminated property lists.
- One module each for the remaining wrapper classes: `MemObjects`, `Kernels`, `Programs`,
  `Queues`, `Events`, `Contexts`, `Devices`, `Platforms` and `Runtime` (for `OpenCL`).

## Model

| member | source | states |
|---|---|---|
| ClTypes.ToU32 | OpenCL/opencl.h:12 | the `(uint)` cast keeps a value below 2^32 and otherwise differs from it by a multiple of 2^32 |
| ClTypes.ToI32 | OpenCL/event.h:23 | reading a 32-bit count into `int`: values below 2^31 are kept, values from 2^31 to 2^32 wrap to negative |
| ClApi.Checked | OpenCL/statics.cpp:12-13 | a reply passes exactly when its status is 0; otherwise the error is the one `throwOnCLError` raises |
| ClApi.OnSuccess | OpenCL/statics.cpp:12-13 | a wrapper returns its value exactly when the status is 0, and raises the status's error otherwise |
| ClApi.Fill | OpenCL/opencl.h:25-27 | an array sized to n and filled by the driver holds the driver's first n values; entries it did not write stay 0 |
| Errors.ThrowOnCLError | OpenCL/statics.cpp:12-46 | success exactly when the code is 0; any other code raises the error of that code |
| Errors.ErrorName | OpenCL/statics.cpp:15-41 | the switch: each of the 23 listed codes has a name of the form `CL_...`, so never "UNKNOWN" |
| Errors.ErrorMessage | OpenCL/statics.cpp:42 | `String::format("OpenCL error: %s (%d)", ...)`: the message starts with "OpenCL error: " and ends with ')'; its name and code read back by the round trip below |
| Errors.ErrorNameUnknown | OpenCL/statics.cpp:40 | every code outside the 23 listed ones, positive codes included, is named "UNKNOWN" |
| Errors.ErrorMessageRoundTrip | OpenCL/statics.cpp:15-42 | the message "OpenCL error: NAME (code)" reads back as the code's name and its exact value |
| Errors.ErrorMessageInjective | OpenCL/statics.cpp:42 | two codes with the same message are the same code |
| Errors.ThrowOnCLErrorMessage | OpenCL/statics.cpp:42-44 | the error raised for a nonzero code starts with "OpenCL error: " and carries the code's name and value |
| Text.NatToStringRoundTrip | OpenCL/device.h:70 | `%llu` formatting: the digits of a number read back as that number |
| Text.IntToStringRoundTrip | OpenCL/statics.cpp:42 | `%d` formatting: a signed number, with its sign, reads back as itself |
| Text.IntToStringHasNo | OpenCL/statics.cpp:42 | a formatted number contains only digits and '-' |
| Text.SplitJoin | OpenCL/program.h:36-39 | words free of the separator, joined and split again, come back unchanged |
| Text.ContainsAt | OpenCL/device.h:126 | `find(t) != npos` holds exactly when t occurs at some position |
| Text.CString | OpenCL/platform.h:83 | reading a char buffer as a C string gives the NUL-free prefix up to the first NUL |
| Text.CStringOf | OpenCL/platform.h:82-83 | a buffer holding a NUL-free string and then a NUL reads back as that string |
| WorkGroup.FactorsOf | OpenCL/statics.cpp:79 | the divisors of n, strictly ascending, each exactly once |
| WorkGroup.FloorSqrt | OpenCL/statics.cpp:75 | the integer square root: r*r <= n < (r+1)*(r+1) |
| WorkGroup.FloorSqrtUnique | OpenCL/statics.cpp:75 | only one value has that property |
| WorkGroup.PerfectSquareOf | OpenCL/statics.cpp:75-76 | a number that is some d*d passes the `sq*sq == n` test |
| WorkGroup.FactorPairing | OpenCL/statics.cpp:84-89 | the i-th smallest divisor times the i-th largest is n |
| WorkGroup.OddDivisorCountIsSquare | OpenCL/statics.cpp:74-90 | an odd number of divisors means a perfect square, which the square case already returned |
| WorkGroup.MiddleDivisorsInnermost | OpenCL/statics.cpp:84-90 | the two middle divisors of an even-length list form the innermost pair |
| WorkGroup.NonSquareHasTwoDivisors | OpenCL/statics.cpp:78-81 | a non-square has at least the divisors 1 and n, so `end` starts above `start` |
| WorkGroup.InnermostRectangle | OpenCL/statics.cpp:78-90 | the two-pointer walk ends on the innermost pair: x*y == n, x < y, and no divisor lies strictly between x and y |
| WorkGroup.WalkEndsInnermost | OpenCL/statics.cpp:84-90 | where the walk stops, on the middle divisors, with both at most n |
| WorkGroup.SquareWorkGroupSize2D | OpenCL/statics.cpp:65-91 | (8,8) for 64, (8,4) for 32, the square root for a perfect square, otherwise the innermost rectangle; in every case x*y equals the truncated multiple |
| WorkGroup.InnermostStraddlesRoot | OpenCL/statics.cpp:78-90 | the innermost pair lies on either side of the square root |
| WorkGroup.InnermostUnique | OpenCL/statics.cpp:78-90 | n has only one innermost pair |
| WorkGroup.TileSpecDeterministic | OpenCL/statics.cpp:65-91 | the tile is determined by n alone |
| WorkGroup.TileExamples | OpenCL/statics.cpp:68-76 | 64 gives 8x8, 32 gives 8x4, 36 gives 6x6, 30 gives 5x6, 1 gives 1x1, 0 gives 0x0 |
| Properties.Flatten | OpenCL/platform.h:22-23 | key-value pairs written out as keys at even positions and values at odd ones |
| Properties.FirstValue | OpenCL/context.h:21-25 | the value of the first pair with a key, or none when no pair has that key |
| Properties.LookupFlatten | OpenCL/context.h:21-25 | with nonzero keys, the driver's scan of the zero-terminated list finds the first pair with each key |
| Properties.LookupPrepend | OpenCL/platform.h:22-23 | a pair put in front sets its key and leaves every other key's value unchanged |
| Properties.ZeroValueDoesNotTerminate | OpenCL/context.h:21-25 | a zero value, such as properties with profiling off, does not end the list; only a zero key does |
| MemObjects.Buffer.AsMemObject | OpenCL/mem_object.h:16-19 | a buffer's MemObject base keeps its handle and flags |
| MemObjects.Image.AsMemObject | OpenCL/mem_object.h:22-26 | an image's MemObject base keeps its handle and flags |
| MemObjects.Release | OpenCL/mem_object.h:11-13 | the destructor issues one release of the handle and checks no status |
| Kernels.OpenKernel | OpenCL/statics.cpp:50-54 | one `clCreateKernel` on the program's handle by name; the kernel exactly when the status is 0, its error otherwise |
| Kernels.Kernel.SetMemArg | OpenCL/kernel.h:18-20 | `clSetKernelArg` with the memory object's handle as sizeof(cl_mem) bytes, status checked |
| Kernels.Kernel.SetUintArg | OpenCL/kernel.h:21-23 | `clSetKernelArg` with 4 bytes of the `uint` value, status checked |
| Kernels.Kernel.SetFloatArg | OpenCL/kernel.h:24-26 | `clSetKernelArg` with the float's 4-byte bit pattern, status checked |
| Kernels.Kernel.SetArg | OpenCL/kernel.h:27-29 | index, size and value passed through unchanged, status checked |
| Kernels.Kernel.GetUlongWorkGroupInfo | OpenCL/kernel.h:44-48 | one work-group query of 8 bytes for this kernel on its program's device; its value when the status is 0 |
| Kernels.Kernel.GetMaxWorkGroupSize | OpenCL/kernel.h:30-32 | the query of CL_KERNEL_WORK_GROUP_SIZE |
| Kernels.Kernel.GetLocalMemSize | OpenCL/kernel.h:33-35 | the query of CL_KERNEL_LOCAL_MEM_SIZE |
| Kernels.Kernel.GetPrivateMemSize | OpenCL/kernel.h:36-38 | the query of CL_KERNEL_PRIVATE_MEM_SIZE |
| Kernels.Kernel.GetPreferredWorkGroupSizeMultiple | OpenCL/kernel.h:39-41 | the query of CL_KERNEL_PREFERRED_WORK_GROUP_SIZE_MULTIPLE |
| Kernels.Kernel.GetSquareWorkGroupSize2D | OpenCL/statics.cpp:65-66 | the tile of the preferred multiple truncated to 32 bits: the product of its sides equals that value |
| Kernels.Kernel.Destroy | OpenCL/kernel.h:14-16 | the destructor issues one release of the kernel handle |
| Programs.WithTrailingSpacesAppend | OpenCL/program.h:36-39 | appending "word " per option distributes over concatenation |
| Programs.WithTrailingSpacesIsJoin | OpenCL/program.h:36-39 | each word followed by a space is the space-joined words followed by one empty word |
| Programs.StandardFlagsHaveNoSpace | OpenCL/program.h:41-52 | no standard flag contains a space |
| Programs.BuildOptionsSplit | OpenCL/program.h:36-52 | the option string, cut at spaces, is the caller's options, then the six standard flags, then an empty tail: none dropped, merged or reordered |
| Programs.ConcatOptions | OpenCL/program.h:36-52 | the loop's string is each option and a space, then the standard options |
| Programs.LogBuffer | OpenCL/program.h:59-60 | the zero-initialised 10240-char log buffer begins with what the driver wrote |
| Programs.BuildLogMessage | OpenCL/program.h:62 | the message is the first sizeGiven characters the driver wrote, at most the buffer |
| Programs.CompilationFailed | OpenCL/program.h:62-63 | the raised message is "Compilation failed: " followed by the build log up to its first NUL, as `c_str()` cuts it: no NUL in the message, the rest of it a prefix of the log, and a NUL in the log right after that prefix when it is shorter |
| Programs.CompilationFailedTerminated | OpenCL/program.h:59-63 | a NUL-terminated log reported with its NUL counted gives "Compilation failed: " followed by the log without the NUL |
| Programs.Load | OpenCL/program.h:25-65 | create from source, build with the concatenated options for the one device, on failure read the build log and raise it, cut at its first NUL; each step only after the previous succeeded |
| Programs.Program.GetKernel | OpenCL/program.h:21-23 | a kernel of this program by name, through `clCreateKernel` |
| Programs.Program.Destroy | OpenCL/program.h:17-19 | the destructor issues one release of the program handle |
| Queues.EventArgs.NumWaitEvents | OpenCL/queue.h:10 | `(uint)waitList.size()`: the length below 2^32, otherwise truncated |
| Queues.EnqueueCall | OpenCL/queue.h:38-40 | an enqueue carries the command, the wait list and its length, and whether the event is wanted |
| Queues.Enqueued | OpenCL/queue.h:31-41 | success exactly for status 0; the event is returned exactly when the caller asked for it |
| Queues.MapFlagsValidValues | OpenCL/queue.h:239 | the map-flags assert admits exactly 0, READ, WRITE and READ\|WRITE |
| Queues.LocalSizes | OpenCL/queue.h:305 | null local sizes exactly when none are given, otherwise the given ones |
| Queues.MemIds | OpenCL/queue.h:203-206 | the GL objects' handles, in input order |
| Queues.CommandQueue.Submit | OpenCL/queue.h:31-41 | one enqueue call; its outcome as `Enqueued` states |
| Queues.CommandQueue.Destroy | OpenCL/queue.h:16-18 | releases the queue exactly when its handle is not null |
| Queues.CommandQueue.EnqueueReadBufferRange | OpenCL/queue.h:24-42 | a read of the given range into host memory |
| Queues.CommandQueue.EnqueueReadBuffer | OpenCL/queue.h:20-22 | a read of the whole buffer: offset 0 and the buffer's size |
| Queues.CommandQueue.EnqueueWriteBufferRange | OpenCL/queue.h:48-66 | a write of the given range from host memory |
| Queues.CommandQueue.EnqueueWriteBuffer | OpenCL/queue.h:44-46 | a write of the whole buffer: offset 0 and the buffer's size |
| Queues.CommandQueue.EnqueueWriteBufferRect | OpenCL/queue.h:67-93 | a one-row rectangle: origin (offset,0,0), host origin 0, region (n,1,1), all pitches 0 |
| Queues.CommandQueue.EnqueueBarrier | OpenCL/queue.h:94-101 | a barrier with the wait list |
| Queues.CommandQueue.EnqueueFillBuffer | OpenCL/queue.h:103-116 | a fill of the whole buffer with a pattern of sizeof(T) bytes |
| Queues.CommandQueue.EnqueueCopyBufferRange | OpenCL/queue.h:123-139 | a copy of the given ranges |
| Queues.CommandQueue.EnqueueCopyBuffer | OpenCL/queue.h:118-121 | for equal sizes only: a copy of the whole buffer from offset 0 to offset 0 |
| Queues.CommandQueue.EnqueueCopyBufferToImage | OpenCL/queue.h:140-159 | buffer offset 0 into region (width,height,1) at the image's origin |
| Queues.CommandQueue.EnqueueWriteImage | OpenCL/queue.h:160-180 | a write of the whole image: origin 0, region (width,height,1), pitches 0 |
| Queues.CommandQueue.EnqueueReadImage | OpenCL/queue.h:181-201 | a read of the whole image: origin 0, region (width,height,1), pitches 0 |
| Queues.CommandQueue.EnqueueAcquireGLObjects | OpenCL/queue.h:202-215 | the objects' handles in order, with their truncated count |
| Queues.CommandQueue.EnqueueReleaseGLObjects | OpenCL/queue.h:216-229 | the objects' handles in order, with their truncated count |
| Queues.CommandQueue.EnqueueMapBuffer | OpenCL/queue.h:232-255 | flags limited to READ/WRITE; the mapped pointer, and the event when wanted, exactly when the status is 0 |
| Queues.CommandQueue.EnqueueMapImage | OpenCL/queue.h:259-286 | flags limited to READ/WRITE; the pointer and both pitches of the whole-image mapping exactly when the status is 0 |
| Queues.CommandQueue.EnqueueUnmapMemObject | OpenCL/queue.h:288-297 | an unmap of the object's pointer |
| Queues.CommandQueue.EnqueueKernel | OpenCL/queue.h:298-320 | at most 3 dimensions; no global offset; local sizes null when none are given, otherwise one per dimension |
| Queues.CommandQueue.Flush | OpenCL/queue.h:321-323 | one `clFlush`, status checked |
| Queues.CommandQueue.Finish | OpenCL/queue.h:324-326 | one `clFinish`, status checked |
| Events.WrappingSub | OpenCL/event.h:35 | `end - start` on `ulong`: the true difference, plus 2^64 when end < start |
| Events.WrappingSubInverse | OpenCL/event.h:35 | start plus the difference gives end, modulo 2^64 |
| Events.WrappingSubUnique | OpenCL/event.h:35 | the difference is the only 64-bit value that does so |
| Events.ReleasesDrain | OpenCL/event.h:22-27 | n releases take n off the reference count |
| Events.RetainThenRelease | OpenCL/event.h:19-30 | a retain then a release leave the count where it was |
| Events.WaitFor | OpenCL/event.h:5-7 | one wait on the single event, status checked |
| Events.GetReferenceCount | OpenCL/event.h:8-18 | one 4-byte query of CL_EVENT_REFERENCE_COUNT; the count when the status is 0 |
| Events.Release | OpenCL/event.h:19-21 | one release, status checked |
| Events.Retain | OpenCL/event.h:28-30 | one retain, status checked |
| Events.ReleaseAll | OpenCL/event.h:22-27 | one count query, then releases only, each answered by the driver given the log before it, as many as the count read as `int` (none when negative); every release but the last succeeded, so the first failure ends it with its error; it passes exactly when the count was read and every release succeeded, and then the count ends at 0 |
| Events.ProfilingSpan | OpenCL/event.h:31-42 | two 8-byte profiling queries in order; the second is made only after the first succeeds; the result is their wrapping difference |
| Events.GetRunTime | OpenCL/event.h:31-36 | COMMAND_END minus COMMAND_START |
| Events.GetQueuedTime | OpenCL/event.h:37-42 | COMMAND_START minus COMMAND_QUEUED |
| Events.CreateUserEventOn | OpenCL/event.h:43-48 | one `clCreateUserEvent` on the context; the event exactly when the status is 0 |
| Events.SetStatus | OpenCL/event.h:50-52 | the status goes to the driver unchanged, and the driver's status is checked |
| Events.GetStatus | OpenCL/event.h:55-66 | one 4-byte query of the execution status, read as `int` |
| Contexts.HostQueueProperties | OpenCL/context.h:21-25 | three entries, ending with the zero key |
| Contexts.DeviceQueueProperties | OpenCL/context.h:91-97 | five entries, ending with the zero key |
| Contexts.HostQueuePropertiesRead | OpenCL/context.h:15-25 | the driver reads the profiling bit exactly when profiling was asked for, no other bit, and no queue size |
| Contexts.DeviceQueuePropertiesRead | OpenCL/context.h:85-97 | the driver reads an out-of-order on-device default queue, without profiling, of the given size |
| Contexts.Context.CreateQueue | OpenCL/context.h:15-36 | one queue creation for the context's device with the host properties; the queue exactly when the status is 0 |
| Contexts.Context.CreateDeviceBuffer | OpenCL/context.h:41-46 | one buffer creation; the buffer keeps its flags and size |
| Contexts.Context.CreateDeviceImage | OpenCL/context.h:47-63 | one image creation; the image keeps its flags and the descriptor's width and height |
| Contexts.Context.CreateFromGL | OpenCL/context.h:66-83 | one GL-texture import; a buffer of the given size |
| Contexts.Context.CreateDeviceQueue | OpenCL/context.h:85-107 | one queue creation with the on-device properties |
| Contexts.Context.CreateProgram | OpenCL/context.h:108-110 | the program loaded for this context and its device |
| Contexts.Context.Destroy | OpenCL/context.h:11-13 | releases the context exactly when its handle is not null |
| Devices.ClassifyVendor | OpenCL/device.h:124-136 | NVIDIA first, then ATI or "Advanced Micro Devices", then Intel, else unknown; unknown exactly when no token occurs |
| Devices.VendorHasToken | OpenCL/device.h:126-133 | a vendor is reported only when its token occurs in the string |
| Devices.NvidiaFirst | OpenCL/device.h:126-127 | "NVIDIA" anywhere wins over every other token |
| Devices.IntelWithoutCapitals | OpenCL/device.h:126-133 | matching is case-sensitive: "Intel" without an upper-case N or A is Intel |
| Devices.LowerCaseIsUnknown | OpenCL/device.h:126-136 | matching is case-sensitive: any vendor string without an upper-case 'N', 'A' or 'I' (the tokens in lower case among them) names no vendor |
| Devices.QueryCall | OpenCL/device.h:124-185 | the k-th capability call: its parameter and the byte size of its field, with dims*8 bytes for the work-item sizes |
| Devices.RanStep | OpenCL/device.h:120-185 | each exchange of a query run is the next capability call, answered by the driver, and every exchange but the last succeeded |
| Devices.RunFrom | OpenCL/device.h:120-185 | the query computed directly: it extends the log by at most 25 calls |
| Devices.QueryRun | OpenCL/device.h:120-185 | the query of a device from a given log: between 1 and 25 calls appended |
| Devices.RunFromSteps | OpenCL/device.h:120-185 | a log whose every step is the next call and whose run ends at a failure or after step 25 is the computed query |
| Devices.QueriedRuns | OpenCL/device.h:120-185 | every complete query is the computed one |
| Devices.QueriedUnique | OpenCL/device.h:120-185 | the query is deterministic: one log per driver and starting log |
| Devices.Ask | OpenCL/device.h:124-174 | issues the next capability call; a success advances the query, a failure ends it |
| Devices.ConcatAt | OpenCL/platform.h:75-77 | the replies of the p-th device's query sit at positions 25p to 25p+25 |
| Devices.QueryAll | OpenCL/device.h:120-185 | the 25 calls in order, stopping at the first failure and raising its error; all 25 replies on success |
| Devices.CopySizes | OpenCL/device.h:143-146 | the work-item-sizes vector is the first dims values of the array the driver filled, 0 where the driver wrote none |
| Devices.Device.constructor | OpenCL/device.h:120-185 | every field holds what the query read for it from its reply |
| Devices.Device.Open | OpenCL/device.h:40-42 | the log after opening is the computed query; success exactly when all 25 calls succeeded; the new device's fields are read from those replies |
| Devices.MegaBytes | OpenCL/device.h:76-77 | the MB shown is the byte count divided by 2^20, rounded down |
| Devices.KiloBytes | OpenCL/device.h:78-79 | the KB shown is the byte count divided by 1024, rounded down |
| Devices.Decimals | OpenCL/device.h:70 | each work-item size in digits that read back as the size |
| Devices.RenderSizes | OpenCL/device.h:68-71 | the sizes shown with a space before every size but the first |
| Devices.SizesTextSplit | OpenCL/device.h:68-71 | the shown sizes, cut at spaces, are the digit strings of the sizes: one per size, in order |
| Platforms.InfoCall | OpenCL/platform.h:82-90 | the k-th string query, into the 1024-byte buffer |
| Platforms.InfoStep | OpenCL/platform.h:80-92 | one more string call, answered with success, extends the progress |
| Platforms.QueryInfo | OpenCL/platform.h:80-92 | the five string calls in order, stopping at the first failure; on success the five strings are the C strings of the replies |
| Platforms.DeviceIds | OpenCL/platform.h:75-77 | the ids the device loop reads: the reported count of them, never more than the array holds |
| Platforms.DeviceIdsAsWritten | OpenCL/platform.h:75-77 | the loop as written, defined only when the second count fits the array |
| Platforms.AsWrittenReadsPastArray | OpenCL/platform.h:71-76 | on the listing `Listed` produces when the count call reports 1 and the listing call 2: the listing asks for 1 entry, the array holds 1, and the loop bound is 2 |
| Platforms.DeviceIdsWhenCountsAgree | OpenCL/platform.h:71-77 | when the counts agree the loop reads exactly the ids the driver wrote |
| Platforms.DeviceIdsFromArray | OpenCL/platform.h:72-77 | every id read lies within both counts and is the driver's entry at that position, or 0 where the driver wrote none |
| Platforms.ListDevices | OpenCL/platform.h:67-73 | the count call and the listing call, each checked; the listed ids on success |
| Platforms.OpenedStep | OpenCL/platform.h:75-77 | one more device opened in full extends the run |
| Platforms.OpenedFail | OpenCL/platform.h:75-77 | a failing device query ends the run |
| Platforms.OpenedAll | OpenCL/platform.h:75-77 | all devices opened: 25 calls per device |
| Platforms.OpenDevices | OpenCL/platform.h:75-77 | a device per id, in order, stopping at the first failure; on success the devices' fields come from the consecutive queries |
| Platforms.QueryDevices | OpenCL/platform.h:67-79 | the listing, then the devices of the listed ids; a failed listing is the last call, and otherwise the log is the device run, which stops at the first failing device |
| Platforms.FirstOfType | OpenCL/platform.h:26-32 | the first device of the type: no earlier device has it, and none is found exactly when no device has it |
| Platforms.TypesOf | OpenCL/platform.h:26-32 | the devices' types, in order |
| Platforms.ContextProperties | OpenCL/platform.h:21-23 | the platform entry, then the caller's properties, then 0 |
| Platforms.ContextPropertiesRead | OpenCL/platform.h:20-23 | the driver reads this platform for CL_CONTEXT_PLATFORM, and the caller's value for every other key |
| Platforms.Platform.constructor | OpenCL/platform.h:83-91 | each of the five strings is the one read for it |
| Platforms.Platform.Open | OpenCL/platform.h:15-18 | the string query, then the devices; a failed string call is the last call, otherwise the log is that of `queryDevices()`; the error is the last call's, and on success every field comes from those replies |
| Platforms.Platform.CreateContext | OpenCL/platform.h:20-47 | the first device of the type, or "Can't find OpenCL device on this platform" with no call; then one context creation for that device alone |
| Runtime.PlatformIdsOf | OpenCL/opencl.h:25-27 | the platform ids are the array of the reported size the listing call filled |
| Runtime.ProbeProperties | OpenCL/opencl.h:30-34 | the probe's properties name the platform under CL_CONTEXT_PLATFORM and hold no other key |
| Runtime.ProbeLog | OpenCL/opencl.h:36-43 | one context creation, then a release exactly when the driver returned a context |
| Runtime.CanCreate | OpenCL/opencl.h:29-45 | true exactly when the creation succeeded; the context is released whenever one was returned |
| Runtime.ProbeFrom | OpenCL/opencl.h:14-19 | the probes in order, from the given log, up to the first that accepts |
| Runtime.ProbeFromFound | OpenCL/opencl.h:14-19 | the platform found accepted its probe; when none is found, every platform was probed |
| Runtime.ProbeFromFirst | OpenCL/opencl.h:14-19 | a first match: every platform before the one found was probed and refused, and with none found every platform refused |
| Runtime.OpenCL.Open | OpenCL/opencl.h:21-28 | the count call, then the listing call into an array of that size, each checked |
| Runtime.OpenCL.NumPlatforms | OpenCL/opencl.h:12 | the platform count, truncated to `uint` |
| Runtime.OpenCL.FirstAccepting | OpenCL/opencl.h:14-17 | the probe loop stops at the search's first accepting platform, with the log the search describes |
| Runtime.OpenCL.CreatePlatform | OpenCL/opencl.h:14-19 | opens the first accepting platform, or raises "Unable to find OpenCL platform" after probing all |

## Left out

- The driver's behaviour is an abstract oracle: any answer to any call given the history. Blocking, asynchronous completion, callbacks and concurrency are not modelled.
- `toString` of `Device` and `Platform` is not modelled, apart from the work-item-size rendering and the MB/KB divisions. The field labels, the type and vendor names and the platform's device count are not modelled.
- `printf` and `Log::write` output is not modelled.
- `File::readText` is not part of this model: the file's text is the `source` parameter of `Context.CreateProgram` and `Programs.Load`.
- `Math::factorsOf` is not part of this model. `WorkGroup.FactorsOf` is its meaning: the ascending list of the divisors.
- WorkGroup.SquareWorkGroupSize2D: the `float` square root is modelled as the exact integer square root. Single-precision rounding for very large n is not modelled.
- The C++ `assert`s (equal sizes for a whole-buffer copy, map flags, dimension counts) are `requires` clauses.
- Destructors are `Destroy`/`Release` methods called once per object. Value copies that would release the same handle again are not modelled: copies of `Buffer`/`Image`, and the `MemObject` copies in the `vector<MemObject>` that `enqueueAcquireGLObjects` and `enqueueReleaseGLObjects` take by value (queue.h:202, 216). The destructors of those copies (mem_object.h:11-13) release each handle when the call returns.
- Text.CString reads the whole reply when the driver wrote no NUL. In `queryPlatformInfo` the one `char buf[1024]` is reused for all five strings (platform.h:81-91), so the C++ would then read on into stale bytes of the earlier strings left in that buffer, and past the array; neither is modelled.
- Programs.BuildLogMessage clamps a `sizeGiven` larger than the 10240-byte buffer to the buffer; the C++ read past the array is not modelled.
- `Program` and `Kernel` keep the device and the program by their handles, the only parts they read.
- The `sizeof` constants are those of a 64-bit host.
- `std::runtime_error` is `Errors.Error`: a status code or a message.
- Platforms.OpenDevices, Platforms.Platform.Open and Runtime.OpenCL.CreatePlatform do not state that the `Device` objects they return are new or distinct.
- Errors.ErrorName: the 23 listed codes are the switch itself. That each gets a `CL_...` name, that every other code is "UNKNOWN" and the message round trip are proved; that the listed names are pairwise distinct is not.
- Devices.CopySizes, Platforms.DeviceIdsFromArray: a driver that writes fewer entries than it reports leaves the C++ arrays `new ulong[maxWorkItemDims]` (device.h:143) and `new cl_device_id[numDevices]` (platform.h:72) uninitialised there; the model reads 0, where the C++ reads whatever was in memory.
- `Context` shares the platform's `Device` object rather than copying it, as the C++ reference member does.
- The commented-out NVIDIA-specific capability fields are not modelled.

## Findings

| source | as written | input that shows it | evidently intended | confidence | as-written member | corrected member |
|---|---|---|---|---|---|---|
| OpenCL/platform.h:71-77 | the array is sized by the first count, but the second call overwrites `numDevices` and the loop runs to that second count | the count call reports 1 device and the listing call reports 2 | read no more ids than the array holds | not executed | Platforms.DeviceIdsAsWritten, Platforms.AsWrittenReadsPastArray | Platforms.DeviceIds, Platforms.DeviceIdsFromArray, Platforms.DeviceIdsWhenCountsAgree |
