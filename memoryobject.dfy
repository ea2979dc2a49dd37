/**
 * The memory-object and buffer wrappers (memoryobject.cc): destruction,
 * wrapping a new handle, `getInfo` with its object discovery, and the
 * checks `createSubBuffer` makes before and after the native call.
 */
module MemoryObject {
  import opened Wrappers
  import opened OpenCL
  import opened Common
  import opened Registry

  /** `release` on a memory object or a buffer: the reference-count destructor. */
  method Release(m: WebCLObject, reg: Registry, rt: Runtime)
    requires m.kind == MemoryObjectType
    modifies m`handle, reg`entries, rt`refCount, rt`calls
    ensures var st := DestroyStep(m.kind, old(m.handle), old(rt.RefCount(m.handle)));
      && m.handle == st.handle
      && (st.handle == NULL <==> old(m.handle) == NULL || old(rt.RefCount(m.handle)) == 1)
      && rt.calls == old(rt.calls) + (if old(m.handle) != NULL then [Call.Release(old(m.handle))] else [])
      && reg.entries == (if st.unregistered && !reg.atExit then Without(old(reg.entries), m) else old(reg.entries))
      && rt.refCount == (if st.released && old(rt.RefCount(m.handle)) > 0
                         then old(rt.refCount)[old(m.handle) := old(rt.RefCount(m.handle)) - 1]
                         else old(rt.refCount))
  {
    m.Destructor(reg, rt);
  }

  /** `MemoryObject::New(h)` and `WebCLBuffer::New(h, parent)`: wrap and register the handle. */
  method New(reg: Registry, h: Handle) returns (m: WebCLObject)
    modifies reg`entries
    ensures fresh(m) && m.kind == MemoryObjectType && m.handle == h && !m.isSubBuffer
    ensures reg.entries == if h == NULL then old(reg.entries) else old(reg.entries)[h := m]
    ensures h != NULL ==> Holds(reg.entries, h, m)
  {
    m := Wrap(reg, MemoryObjectType, h);
  }

  const MemInfoErrors: seq<ErrorCode> := [InvalidValue, InvalidMemObject, OutOfResources, OutOfHostMemory]

  /** The `getInfo` parameters whose handling is modelled. */
  datatype MemInfo = MemType | MemFlags | MemSize | MemOffset | AssociatedMemObject | MemContext | OtherInfo

  /** What `getInfo` returns: a number, a wrapper (null for none), or an exception. */
  datatype MemInfoResult = Number(n: int) | Object(obj: WebCLObject?) | InfoRaised(error: Thrown)

  /**
   * `getInfo`: `ret` and `value` are the runtime's answer.  Numbers reach
   * script as unsigned 32-bit values (the size and the offset through a signed
   * cast and `JS_INT`, which lands on the same value); the parent buffer and
   * the context are found in the registry or wrapped anew.
   */
  method GetInfo(param: MemInfo, ret: int, value: nat, reg: Registry) returns (r: MemInfoResult)
    modifies reg`entries
    ensures param == OtherInfo ==> r == InfoRaised(Named(InvalidValue)) && reg.entries == old(reg.entries)
    ensures param != OtherInfo && ret != CL_SUCCESS ==>
      r == InfoRaised(ThrowChain(ret, MemInfoErrors)) && reg.entries == old(reg.entries)
    ensures param in {MemType, MemFlags, MemSize, MemOffset} && ret == CL_SUCCESS ==>
      r == Number(JsInt(value)) && reg.entries == old(reg.entries)
    ensures (param == AssociatedMemObject || param == MemContext) && ret == CL_SUCCESS ==>
      && r.Object? && (r.obj == null <==> value == NULL)
      && (value != NULL && value in old(reg.entries) ==> r.obj == old(reg.entries)[value] && reg.entries == old(reg.entries))
      && (value != NULL && value !in old(reg.entries) ==>
            && r.obj != null && fresh(r.obj) && r.obj.handle == value
            && r.obj.kind == (if param == MemContext then ContextType else MemoryObjectType)
            && reg.entries == old(reg.entries)[value := r.obj])
  {
    if param == OtherInfo {
      return InfoRaised(Named(InvalidValue));
    }
    if ret != CL_SUCCESS {
      return InfoRaised(ThrowChain(ret, MemInfoErrors));
    }
    if param == AssociatedMemObject || param == MemContext {
      var w := Discover(reg, value, if param == MemContext then ContextType else MemoryObjectType);
      return Object(w);
    }
    r := Number(JsInt(value));
  }

  // ---------------------------------------------------------------------
  // createSubBuffer
  // ---------------------------------------------------------------------

  /**
   * Access-flag compatibility with the parent: a read-only parent admits no
   * write-only or read-write sub-buffer, a write-only parent no read-write or
   * read-only one.
   */
  predicate FlagsCompatible(parentFlags: bv64, flags: bv64)
  {
    !((parentFlags & CL_MEM_READ_ONLY != 0 && flags & (CL_MEM_WRITE_ONLY | CL_MEM_READ_WRITE) != 0)
      || (parentFlags & CL_MEM_WRITE_ONLY != 0 && flags & (CL_MEM_READ_WRITE | CL_MEM_READ_ONLY) != 0))
  }

  /** Asking for the parent's own access, or for no access bits at all, is always compatible. */
  lemma SameAccessCompatible(a: bv64)
    requires a in {CL_MEM_READ_WRITE, CL_MEM_WRITE_ONLY, CL_MEM_READ_ONLY}
    ensures FlagsCompatible(a, a)
    ensures FlagsCompatible(a, 0)
  {
  }

  /** A read-write parent admits every sub-buffer flag set. */
  lemma ReadWriteParentAdmitsAll(flags: bv64)
    ensures FlagsCompatible(CL_MEM_READ_WRITE, flags)
  {
    assert CL_MEM_READ_WRITE & CL_MEM_READ_ONLY == 0;
    assert CL_MEM_READ_WRITE & CL_MEM_WRITE_ONLY == 0;
  }

  /** A read-only parent admits exactly the sub-buffers that ask for neither write access. */
  lemma ReadOnlyParentAdmits(flags: bv64)
    ensures FlagsCompatible(CL_MEM_READ_ONLY, flags) <==> flags & CL_MEM_WRITE_ONLY == 0 && flags & CL_MEM_READ_WRITE == 0
  {
    assert flags & (CL_MEM_WRITE_ONLY | CL_MEM_READ_WRITE) == 0 <==>
           flags & CL_MEM_WRITE_ONLY == 0 && flags & CL_MEM_READ_WRITE == 0;
  }

  /**
   * The checks before the native call, in their order.  `parentFlags` and
   * `parentAssoc` answer the flag and associated-object queries on the
   * buffer itself.
   */
  function SubBufferFailure(isSubBuffer: bool, flags: U32, parentFlags: bv64, origin: U32, size: U32,
                            parentAssoc: Handle): (r: Option<ErrorCode>)
    ensures isSubBuffer ==> r == Some(InvalidValue)
    ensures !FlagsCompatible(parentFlags, flags as bv64) ==> r == Some(InvalidValue)
    ensures origin >= size ==> r == Some(InvalidValue)
    ensures r == Some(InvalidMemObject) <==>
      !isSubBuffer && FlagsCompatible(parentFlags, flags as bv64) && origin < size && parentAssoc != NULL
    ensures r.None? <==>
      !isSubBuffer && FlagsCompatible(parentFlags, flags as bv64) && origin < size && parentAssoc == NULL
  {
    if isSubBuffer then Some(InvalidValue)
    else if !FlagsCompatible(parentFlags, flags as bv64) then Some(InvalidValue)
    else if origin >= size then Some(InvalidValue)
    else if parentAssoc != NULL then Some(InvalidMemObject)
    else None
  }

  const SubBufferErrors: seq<ErrorCode> :=
    [InvalidMemObject, InvalidValue, InvalidBufferSize, MemObjectAllocationFailure, OutOfResources, OutOfHostMemory]

  /** How `createSubBuffer` ends. */
  datatype SubBufferResult = SubBufferCreated(buffer: WebCLObject) | SubBufferRaised(error: Thrown)

  /**
   * `createSubBuffer` on buffer `b`: the checks, the native call
   * (`createRet` and `created` are its answer), and on success a new
   * registered wrapper marked as a sub-buffer.
   */
  method CreateSubBuffer(b: WebCLObject, flags: U32, parentFlags: bv64, origin: U32, size: U32, parentAssoc: Handle,
                         createRet: int, created: Handle, reg: Registry, rt: Runtime)
    returns (r: SubBufferResult)
    modifies reg`entries, rt`calls
    ensures var f := SubBufferFailure(b.isSubBuffer, flags, parentFlags, origin, size, parentAssoc);
      && (f.Some? ==> r == SubBufferRaised(Named(f.value)) && rt.calls == old(rt.calls) && reg.entries == old(reg.entries))
      && (f.None? ==> rt.calls == old(rt.calls) + [Call.CreateSubBuffer(b.handle, flags as bv64, origin, size)])
      && (f.None? && createRet != CL_SUCCESS ==>
            r == SubBufferRaised(ThrowChain(createRet, SubBufferErrors)) && reg.entries == old(reg.entries))
      && (f.None? && createRet == CL_SUCCESS ==>
            && r.SubBufferCreated? && fresh(r.buffer) && r.buffer.isSubBuffer
            && r.buffer.kind == MemoryObjectType && r.buffer.handle == created
            && reg.entries == (if created == NULL then old(reg.entries) else old(reg.entries)[created := r.buffer]))
  {
    var f := SubBufferFailure(b.isSubBuffer, flags, parentFlags, origin, size, parentAssoc);
    if f.Some? {
      return SubBufferRaised(Named(f.value));
    }
    rt.Issue(Call.CreateSubBuffer(b.handle, flags as bv64, origin, size));
    if createRet != CL_SUCCESS {
      return SubBufferRaised(ThrowChain(createRet, SubBufferErrors));
    }
    var sub := New(reg, created);
    sub.isSubBuffer := true;
    r := SubBufferCreated(sub);
  }
}
