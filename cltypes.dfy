/** Fixed-width integer types and the OpenCL constants the wrapper layer uses. */
module ClTypes {

  const TWO_32: int := 0x1_0000_0000
  const TWO_64: int := 0x1_0000_0000_0000_0000

  type u32 = x: int | 0 <= x < TWO_32
  type u64 = x: int | 0 <= x < TWO_64
  type i32 = x: int | -0x8000_0000 <= x < 0x8000_0000

  /** An opaque driver handle (cl_mem, cl_event, cl_context, ...); 0 is the null handle. */
  type Handle = u64

  /** A host address passed through to the driver unchanged. */
  type HostPtr = u64

  /** `nullptr` as a host address. */
  const NULL_HOST_PTR: HostPtr := 0

  /** The C++ cast `(uint)x` of an unsigned 64-bit value: keeps the low 32 bits. */
  function ToU32(x: int): (r: u32)
    requires 0 <= x
    ensures x < TWO_32 ==> r == x
    ensures (x - r) % TWO_32 == 0
  {
    x % TWO_32
  }

  /** Reinterprets the low 32 bits of a value as a signed 32-bit integer (`int` read from 4 bytes). */
  function ToI32(x: u64): (r: i32)
    ensures x < 0x8000_0000 ==> r == x
    ensures 0x8000_0000 <= x < TWO_32 ==> r == x - TWO_32
  {
    var low := x % TWO_32;
    if low < 0x8000_0000 then low else low - TWO_32
  }

  // cl_context_properties / cl_queue_properties keys
  const CL_CONTEXT_PLATFORM: int := 0x1084
  const CL_QUEUE_PROPERTIES: int := 0x1093
  const CL_QUEUE_SIZE: int := 0x1094

  // cl_command_queue_properties bits
  const CL_QUEUE_OUT_OF_ORDER_EXEC_MODE_ENABLE: bv64 := 1
  const CL_QUEUE_PROFILING_ENABLE: bv64 := 2
  const CL_QUEUE_ON_DEVICE: bv64 := 4
  const CL_QUEUE_ON_DEVICE_DEFAULT: bv64 := 8

  // cl_map_flags bits
  const CL_MAP_READ: bv64 := 1
  const CL_MAP_WRITE: bv64 := 2

  // cl_device_type values
  const CL_DEVICE_TYPE_DEFAULT: u64 := 1
  const CL_DEVICE_TYPE_CPU: u64 := 2
  const CL_DEVICE_TYPE_GPU: u64 := 4
  const CL_DEVICE_TYPE_ACCELERATOR: u64 := 8
  const CL_DEVICE_TYPE_ALL: u64 := 0xFFFF_FFFF

  // cl_device_exec_capabilities bits
  const CL_EXEC_KERNEL: bv64 := 1
  const CL_EXEC_NATIVE_KERNEL: bv64 := 2

  // cl_device_fp_config bits
  const CL_FP_DENORM: bv64 := 1
  const CL_FP_INF_NAN: bv64 := 2
  const CL_FP_ROUND_TO_NEAREST: bv64 := 4
  const CL_FP_ROUND_TO_ZERO: bv64 := 8
  const CL_FP_ROUND_TO_INF: bv64 := 16
  const CL_FP_FMA: bv64 := 32

  // command execution status values
  const CL_COMPLETE: int := 0
  const CL_RUNNING: int := 1
  const CL_SUBMITTED: int := 2
  const CL_QUEUED: int := 3

  /** sizeof of the host types the wrappers pass to the driver (64-bit host). */
  const SIZEOF_UINT: nat := 4
  const SIZEOF_INT: nat := 4
  const SIZEOF_FLOAT: nat := 4
  const SIZEOF_ULONG: nat := 8
  const SIZEOF_POINTER: nat := 8

  function AsBits(x: u64): bv64 { x as bv64 }
}
