/** The memory-object records: a handle with its creation flags, and the
    buffer size or image shape the wrappers remember. None of them changes
    after construction. */
module MemObjects {
  import opened ClTypes
  import opened ClApi

  datatype MemObject = MemObject(id: Handle, flags: u64)

  datatype Buffer = Buffer(id: Handle, flags: u64, size: u64)
  {
    /** The MemObject base of this buffer. */
    function AsMemObject(): (m: MemObject)
      ensures m.id == id && m.flags == flags
    {
      MemObject(id, flags)
    }
  }

  datatype Image = Image(id: Handle, flags: u64, width: u64, height: u64)
  {
    function AsMemObject(): (m: MemObject)
      ensures m.id == id && m.flags == flags
    {
      MemObject(id, flags)
    }
  }

  /** The destructor: one release of the handle, whose status is not checked. */
  method Release(drv: Driver, m: MemObject)
    modifies drv
    ensures Appended(drv, ReleaseMemObject(m.id))
  {
    var _ := drv.Issue(ReleaseMemObject(m.id));
  }
}
