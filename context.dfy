/** `Context`: a context handle and the one device it was created for. The context
    creates the queues, buffers, images and programs of that device. */
module Contexts {
  import opened ClTypes
  import opened Wrappers
  import opened Errors
  import opened ClApi
  import opened Properties
  import opened MemObjects
  import opened Queues
  import opened Programs
  import opened Devices

  /** CL_QUEUE_OUT_OF_ORDER_EXEC_MODE_ENABLE | CL_QUEUE_ON_DEVICE | CL_QUEUE_ON_DEVICE_DEFAULT */
  const DEVICE_QUEUE_FLAGS: bv64 := CL_QUEUE_OUT_OF_ORDER_EXEC_MODE_ENABLE | CL_QUEUE_ON_DEVICE | CL_QUEUE_ON_DEVICE_DEFAULT

  /** The size `createDeviceQueue` gives an on-device queue when the caller names none. */
  const DEFAULT_DEVICE_QUEUE_SIZE: u64 := 262144

  /** The properties of a host queue: its property bits, profiling when asked for. */
  function HostQueueProperties(profiling: bool): (props: seq<u64>)
    ensures |props| == 3 && props[2] == 0
  {
    var bits: bv64 := if profiling then CL_QUEUE_PROFILING_ENABLE else 0;
    [CL_QUEUE_PROPERTIES, bits as u64, 0]
  }

  /** The properties of an on-device queue: the three on-device bits and the queue size. */
  function DeviceQueueProperties(size: u64): (props: seq<u64>)
    ensures |props| == 5 && props[4] == 0
  {
    [CL_QUEUE_PROPERTIES, DEVICE_QUEUE_FLAGS as u64, CL_QUEUE_SIZE, size, 0]
  }

  /** What the driver reads from a host queue's properties: profiling is enabled exactly when
      asked for, no other property bit is set, and no queue size is given. */
  lemma HostQueuePropertiesRead(profiling: bool)
    ensures Lookup(HostQueueProperties(profiling), CL_QUEUE_PROPERTIES).Some?
    ensures var bits := Lookup(HostQueueProperties(profiling), CL_QUEUE_PROPERTIES).value as bv64;
      && (bits & CL_QUEUE_PROFILING_ENABLE != 0 <==> profiling)
      && bits & !CL_QUEUE_PROFILING_ENABLE == 0
    ensures Lookup(HostQueueProperties(profiling), CL_QUEUE_SIZE) == None
  {
    var props := HostQueueProperties(profiling);
    LookupPrepend(CL_QUEUE_PROPERTIES, props[1], [0], CL_QUEUE_PROPERTIES);
    LookupPrepend(CL_QUEUE_PROPERTIES, props[1], [0], CL_QUEUE_SIZE);
    assert props == [CL_QUEUE_PROPERTIES, props[1]] + [0];
  }

  /** What the driver reads from an on-device queue's properties: an out-of-order queue on
      the device, the device's default one, without profiling, of the given size. */
  lemma DeviceQueuePropertiesRead(size: u64)
    ensures Lookup(DeviceQueueProperties(size), CL_QUEUE_PROPERTIES) == Some(DEVICE_QUEUE_FLAGS as u64)
    ensures Lookup(DeviceQueueProperties(size), CL_QUEUE_SIZE) == Some(size)
    ensures DEVICE_QUEUE_FLAGS & CL_QUEUE_OUT_OF_ORDER_EXEC_MODE_ENABLE != 0
    ensures DEVICE_QUEUE_FLAGS & CL_QUEUE_ON_DEVICE != 0 && DEVICE_QUEUE_FLAGS & CL_QUEUE_ON_DEVICE_DEFAULT != 0
    ensures DEVICE_QUEUE_FLAGS & CL_QUEUE_PROFILING_ENABLE == 0
  {
    var props := DeviceQueueProperties(size);
    var tail := [CL_QUEUE_SIZE as u64, size, 0];
    assert props == [CL_QUEUE_PROPERTIES, DEVICE_QUEUE_FLAGS as u64] + tail;
    LookupPrepend(CL_QUEUE_PROPERTIES, DEVICE_QUEUE_FLAGS as u64, tail, CL_QUEUE_PROPERTIES);
    LookupPrepend(CL_QUEUE_PROPERTIES, DEVICE_QUEUE_FLAGS as u64, tail, CL_QUEUE_SIZE);
    LookupPrepend(CL_QUEUE_SIZE, size, [0], CL_QUEUE_SIZE);
  }

  /** The device is the platform's own `Device` object, shared, not a copy. */
  datatype Context = Context(id: Handle, device: Device)
  {
    /** `createQueue(profiling)`: a host queue for the context's device. */
    method CreateQueue(drv: Driver, profiling: bool) returns (r: Result<CommandQueue, Error>)
      modifies drv
      ensures Appended(drv, CreateCommandQueueWithProperties(id, device.id, HostQueueProperties(profiling)))
      ensures var reply := drv.oracle(old(drv.log), CreateCommandQueueWithProperties(id, device.id, HostQueueProperties(profiling)));
        r == OnSuccess(reply, CommandQueue(reply.handle))
    {
      var reply := drv.Issue(CreateCommandQueueWithProperties(id, device.id, HostQueueProperties(profiling)));
      r := OnSuccess(reply, CommandQueue(reply.handle));
    }

    /** `createDeviceBuffer(numBytes, flags, hostPtr)`: a buffer that remembers its flags
        and size. */
    method CreateDeviceBuffer(drv: Driver, numBytes: u64, flags: u64, hostPtr: HostPtr := NULL_HOST_PTR) returns (r: Result<Buffer, Error>)
      modifies drv
      ensures Appended(drv, CreateBuffer(id, flags, numBytes, hostPtr))
      ensures var reply := drv.oracle(old(drv.log), CreateBuffer(id, flags, numBytes, hostPtr));
        r == OnSuccess(reply, Buffer(reply.handle, flags, numBytes))
    {
      var reply := drv.Issue(CreateBuffer(id, flags, numBytes, hostPtr));
      r := OnSuccess(reply, Buffer(reply.handle, flags, numBytes));
    }

    /** `createDeviceImage(flags, format, desc, hostPtr)`: an image that remembers its flags,
        width and height. */
    method CreateDeviceImage(drv: Driver, flags: u64, format: ImageFormat, desc: ImageDesc, hostPtr: HostPtr)
      returns (r: Result<Image, Error>)
      modifies drv
      ensures Appended(drv, CreateImage(id, flags, format, desc, hostPtr))
      ensures var reply := drv.oracle(old(drv.log), CreateImage(id, flags, format, desc, hostPtr));
        r == OnSuccess(reply, Image(reply.handle, flags, desc.width, desc.height))
    {
      var reply := drv.Issue(CreateImage(id, flags, format, desc, hostPtr));
      r := OnSuccess(reply, Image(reply.handle, flags, desc.width, desc.height));
    }

    /** `createFromGLTexture(flags, textureId, target, numBytes, mipLevel)`: a buffer over an
        OpenGL texture, with the byte size the caller states. */
    method CreateFromGL(drv: Driver, flags: u64, textureId: u32, target: u32, numBytes: u64, mipLevel: i32 := 0)
      returns (r: Result<Buffer, Error>)
      modifies drv
      ensures Appended(drv, CreateFromGLTexture(id, flags, target, mipLevel, textureId))
      ensures var reply := drv.oracle(old(drv.log), CreateFromGLTexture(id, flags, target, mipLevel, textureId));
        r == OnSuccess(reply, Buffer(reply.handle, flags, numBytes))
    {
      var reply := drv.Issue(CreateFromGLTexture(id, flags, target, mipLevel, textureId));
      r := OnSuccess(reply, Buffer(reply.handle, flags, numBytes));
    }

    /** `createDeviceQueue(size)`: an on-device queue for the context's device. */
    method CreateDeviceQueue(drv: Driver, size: u64 := DEFAULT_DEVICE_QUEUE_SIZE) returns (r: Result<CommandQueue, Error>)
      modifies drv
      ensures Appended(drv, CreateCommandQueueWithProperties(id, device.id, DeviceQueueProperties(size)))
      ensures var reply := drv.oracle(old(drv.log), CreateCommandQueueWithProperties(id, device.id, DeviceQueueProperties(size)));
        r == OnSuccess(reply, CommandQueue(reply.handle))
    {
      var reply := drv.Issue(CreateCommandQueueWithProperties(id, device.id, DeviceQueueProperties(size)));
      r := OnSuccess(reply, CommandQueue(reply.handle));
    }

    /** `createProgram(filename, options)`: the program built from the file's text for the
        context's device; `source` is that text. */
    method CreateProgram(drv: Driver, filename: string, source: string, options: seq<string> := [])
      returns (r: Result<Program, Error>)
      modifies drv
      ensures Loaded(drv, id, device.id, filename, source, options, r)
    {
      r := Load(drv, id, device.id, filename, source, options);
    }

    /** The destructor: releases the context when its handle is not null. */
    method Destroy(drv: Driver)
      modifies drv
      ensures id != 0 ==> Appended(drv, ReleaseContext(id))
      ensures id == 0 ==> drv.log == old(drv.log)
    {
      if id != 0 {
        var _ := drv.Issue(ReleaseContext(id));
      }
    }
  }
}
