/** `Kernel`: a named kernel of a built program. Argument setters pass the byte
    size of the host type they are given; the work-group getters each read one
    64-bit value for their own parameter. */
module Kernels {
  import opened ClTypes
  import opened Wrappers
  import opened Errors
  import opened ClApi
  import opened MemObjects
  import WorkGroup

  /** The program is kept by the two handles the kernel uses: the program's own and its device's. */
  datatype Kernel = Kernel(programId: Handle, deviceId: Handle, id: Handle, name: string)
  {
    /** `setArg(index, mem)`: the argument is the `cl_mem` handle, sizeof(cl_mem) bytes. */
    method SetMemArg(drv: Driver, index: u32, mem: MemObject) returns (o: Outcome<Error>)
      modifies drv
      ensures Appended(drv, SetKernelArg(id, index, SIZEOF_POINTER, MemHandleArg(mem.id)))
      ensures o == ThrowOnCLError(drv.oracle(old(drv.log), SetKernelArg(id, index, SIZEOF_POINTER, MemHandleArg(mem.id))).status)
    {
      o := SetArg(drv, index, SIZEOF_POINTER, MemHandleArg(mem.id));
    }

    /** `setArg(index, uint)`: four bytes. */
    method SetUintArg(drv: Driver, index: u32, value: u32) returns (o: Outcome<Error>)
      modifies drv
      ensures Appended(drv, SetKernelArg(id, index, SIZEOF_UINT, UintArg(value)))
      ensures o == ThrowOnCLError(drv.oracle(old(drv.log), SetKernelArg(id, index, SIZEOF_UINT, UintArg(value))).status)
    {
      o := SetArg(drv, index, SIZEOF_UINT, UintArg(value));
    }

    /** `setArg(index, float)`: four bytes, the float's bit pattern. */
    method SetFloatArg(drv: Driver, index: u32, value: bv32) returns (o: Outcome<Error>)
      modifies drv
      ensures Appended(drv, SetKernelArg(id, index, SIZEOF_FLOAT, FloatArg(value)))
      ensures o == ThrowOnCLError(drv.oracle(old(drv.log), SetKernelArg(id, index, SIZEOF_FLOAT, FloatArg(value))).status)
    {
      o := SetArg(drv, index, SIZEOF_FLOAT, FloatArg(value));
    }

    /** The raw `setArg(index, size, value)`: index and size go through unchanged. */
    method SetArg(drv: Driver, index: u32, size: u64, value: ArgValue) returns (o: Outcome<Error>)
      modifies drv
      ensures Appended(drv, SetKernelArg(id, index, size, value))
      ensures o == ThrowOnCLError(drv.oracle(old(drv.log), SetKernelArg(id, index, size, value)).status)
    {
      var reply := drv.Issue(SetKernelArg(id, index, size, value));
      o := ThrowOnCLError(reply.status);
    }

    /** `getUlongWorkGroupInfo`: one query of sizeof(ulong) bytes for the kernel on its program's device. */
    method GetUlongWorkGroupInfo(drv: Driver, param: WorkGroupParam) returns (r: Result<u64, Error>)
      modifies drv
      ensures Appended(drv, GetKernelWorkGroupInfo(id, deviceId, param, SIZEOF_ULONG))
      ensures var reply := drv.oracle(old(drv.log), GetKernelWorkGroupInfo(id, deviceId, param, SIZEOF_ULONG));
        r == OnSuccess(reply, reply.value)
    {
      var reply := drv.Issue(GetKernelWorkGroupInfo(id, deviceId, param, SIZEOF_ULONG));
      r := OnSuccess(reply, reply.value);
    }

    method GetMaxWorkGroupSize(drv: Driver) returns (r: Result<u64, Error>)
      modifies drv
      ensures Appended(drv, GetKernelWorkGroupInfo(id, deviceId, KernelWorkGroupSize, SIZEOF_ULONG))
      ensures var reply := drv.oracle(old(drv.log), GetKernelWorkGroupInfo(id, deviceId, KernelWorkGroupSize, SIZEOF_ULONG));
        r == OnSuccess(reply, reply.value)
    {
      r := GetUlongWorkGroupInfo(drv, KernelWorkGroupSize);
    }

    method GetLocalMemSize(drv: Driver) returns (r: Result<u64, Error>)
      modifies drv
      ensures Appended(drv, GetKernelWorkGroupInfo(id, deviceId, KernelLocalMemSize, SIZEOF_ULONG))
      ensures var reply := drv.oracle(old(drv.log), GetKernelWorkGroupInfo(id, deviceId, KernelLocalMemSize, SIZEOF_ULONG));
        r == OnSuccess(reply, reply.value)
    {
      r := GetUlongWorkGroupInfo(drv, KernelLocalMemSize);
    }

    method GetPrivateMemSize(drv: Driver) returns (r: Result<u64, Error>)
      modifies drv
      ensures Appended(drv, GetKernelWorkGroupInfo(id, deviceId, KernelPrivateMemSize, SIZEOF_ULONG))
      ensures var reply := drv.oracle(old(drv.log), GetKernelWorkGroupInfo(id, deviceId, KernelPrivateMemSize, SIZEOF_ULONG));
        r == OnSuccess(reply, reply.value)
    {
      r := GetUlongWorkGroupInfo(drv, KernelPrivateMemSize);
    }

    method GetPreferredWorkGroupSizeMultiple(drv: Driver) returns (r: Result<u64, Error>)
      modifies drv
      ensures Appended(drv, GetKernelWorkGroupInfo(id, deviceId, KernelPreferredWorkGroupSizeMultiple, SIZEOF_ULONG))
      ensures var reply := drv.oracle(old(drv.log), GetKernelWorkGroupInfo(id, deviceId, KernelPreferredWorkGroupSizeMultiple, SIZEOF_ULONG));
        r == OnSuccess(reply, reply.value)
    {
      r := GetUlongWorkGroupInfo(drv, KernelPreferredWorkGroupSizeMultiple);
    }

    /** `getSquareWorkGroupSize2D`: the tile for the preferred work-group size multiple,
        truncated to `uint`. */
    method GetSquareWorkGroupSize2D(drv: Driver) returns (r: Result<(u32, u32), Error>)
      modifies drv
      ensures Appended(drv, GetKernelWorkGroupInfo(id, deviceId, KernelPreferredWorkGroupSizeMultiple, SIZEOF_ULONG))
      ensures var reply := drv.oracle(old(drv.log), GetKernelWorkGroupInfo(id, deviceId, KernelPreferredWorkGroupSizeMultiple, SIZEOF_ULONG));
        && (r.Success? <==> reply.status == 0)
        && (r.Failure? ==> r.error == ClError(reply.status))
        && (r.Success? ==> WorkGroup.TileSpec(reply.value % TWO_32, r.value.0, r.value.1)
                           && r.value.0 * r.value.1 == reply.value % TWO_32)
    {
      var multiple :- GetPreferredWorkGroupSizeMultiple(drv);
      var x, y := WorkGroup.SquareWorkGroupSize2D(multiple);
      r := Success((x, y));
    }

    /** The destructor: one release of the kernel handle. */
    method Destroy(drv: Driver)
      modifies drv
      ensures Appended(drv, ReleaseKernel(id))
    {
      var _ := drv.Issue(ReleaseKernel(id));
    }
  }

  /** The constructor's `createKernel`: clCreateKernel on the program by name, raised on failure. */
  method OpenKernel(drv: Driver, programId: Handle, deviceId: Handle, name: string) returns (r: Result<Kernel, Error>)
    modifies drv
    ensures Appended(drv, CreateKernel(programId, name))
    ensures var reply := drv.oracle(old(drv.log), CreateKernel(programId, name));
      r == OnSuccess(reply, Kernel(programId, deviceId, reply.handle, name))
  {
    var reply := drv.Issue(CreateKernel(programId, name));
    r := OnSuccess(reply, Kernel(programId, deviceId, reply.handle, name));
  }
}
