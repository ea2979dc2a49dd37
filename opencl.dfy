/**
 * The OpenCL runtime underneath the binding, seen only through what the
 * binding asks of it: integer status codes, opaque handles, reference counts
 * and the context each resource belongs to.  The runtime itself is an oracle;
 * the model keeps a log of every native call the binding issues.
 */
module OpenCL {
  import opened Wrappers

  /** An opaque native handle (an address); 0 is the null handle. */
  type Handle = nat

  const NULL: Handle := 0

  /** The value `(cl_context) -1` that the binding pre-loads before a context query. */
  const ALL_ONES_HANDLE: Handle := 0xFFFF_FFFF_FFFF_FFFF

  /** A JavaScript number coerced with `Uint32Value()`. */
  type U32 = x: nat | x < 0x1_0000_0000

  const TWO_32: nat := 0x1_0000_0000
  const TWO_64: nat := 0x1_0000_0000_0000_0000

  /** The signed 32-bit reading of a 32-bit pattern, as a C cast to `int` gives it. */
  function ToInt32(x: U32): (r: int)
    ensures -0x8000_0000 <= r < 0x8000_0000
    ensures r % TWO_32 == x
    ensures r >= 0 <==> x < 0x8000_0000
  {
    if x < 0x8000_0000 then x else x - TWO_32
  }

  /**
   * `JS_INT(v)`: the value is cast to `uint32_t` before it becomes a script
   * number, so it arrives reduced modulo 2^32, a negative one wrapped.
   */
  function JsInt(x: int): (r: nat)
    ensures r < TWO_32
    ensures (x - r) % TWO_32 == 0
    ensures 0 <= x < TWO_32 ==> r == x
    ensures -0x8000_0000 <= x < 0 ==> r == x + TWO_32
  {
    x % TWO_32
  }

  /** `size_t` arithmetic (64-bit, wrapping). */
  function AddSize(a: nat, b: nat): (r: nat)
    ensures r < TWO_64
    ensures a + b < TWO_64 ==> r == a + b
  {
    (a + b) % TWO_64
  }

  function MulSize(a: nat, b: nat): (r: nat)
    ensures r < TWO_64
    ensures a * b < TWO_64 ==> r == a * b
  {
    (a * b) % TWO_64
  }

  const CL_SUCCESS: int := 0

  /** The OpenCL error codes the binding names. */
  datatype ErrorCode =
    | DeviceNotFound | DeviceNotAvailable | MemObjectAllocationFailure
    | OutOfResources | OutOfHostMemory | MemCopyOverlap | ImageFormatMismatch
    | ImageFormatNotSupported | MapFailure | MisalignedSubBufferOffset
    | ExecStatusErrorForEventsInWaitList
    | InvalidValue | InvalidDeviceType | InvalidPlatform | InvalidDevice
    | InvalidContext | InvalidQueueProperties | InvalidCommandQueue
    | InvalidHostPtr | InvalidMemObject | InvalidImageFormatDescriptor
    | InvalidImageSize | InvalidBinary | InvalidProgramExecutable
    | InvalidKernel | InvalidKernelArgs | InvalidWorkDimension
    | InvalidWorkGroupSize | InvalidWorkItemSize | InvalidGlobalOffset
    | InvalidEventWaitList | InvalidEvent | InvalidOperation | InvalidGLObject
    | InvalidBufferSize | InvalidMipLevel | InvalidGlobalWorkSize
    | InvalidProperty | InvalidImageDescriptor
    | InvalidGLSharegroupReferenceKHR

  /** The integer value of each code, as the OpenCL 1.2 headers define it. */
  function Code(e: ErrorCode): (r: int)
    ensures r < 0
  {
    match e
    case DeviceNotFound => -1
    case DeviceNotAvailable => -2
    case MemObjectAllocationFailure => -4
    case OutOfResources => -5
    case OutOfHostMemory => -6
    case MemCopyOverlap => -8
    case ImageFormatMismatch => -9
    case ImageFormatNotSupported => -10
    case MapFailure => -12
    case MisalignedSubBufferOffset => -13
    case ExecStatusErrorForEventsInWaitList => -14
    case InvalidValue => -30
    case InvalidDeviceType => -31
    case InvalidPlatform => -32
    case InvalidDevice => -33
    case InvalidContext => -34
    case InvalidQueueProperties => -35
    case InvalidCommandQueue => -36
    case InvalidHostPtr => -37
    case InvalidMemObject => -38
    case InvalidImageFormatDescriptor => -39
    case InvalidImageSize => -40
    case InvalidBinary => -42
    case InvalidProgramExecutable => -45
    case InvalidKernel => -48
    case InvalidKernelArgs => -52
    case InvalidWorkDimension => -53
    case InvalidWorkGroupSize => -54
    case InvalidWorkItemSize => -55
    case InvalidGlobalOffset => -56
    case InvalidEventWaitList => -57
    case InvalidEvent => -58
    case InvalidOperation => -59
    case InvalidGLObject => -60
    case InvalidBufferSize => -61
    case InvalidMipLevel => -62
    case InvalidGlobalWorkSize => -63
    case InvalidProperty => -64
    case InvalidImageDescriptor => -65
    case InvalidGLSharegroupReferenceKHR => -1000
  }

  /** Distinct codes have distinct values, so a status names at most one code. */
  lemma CodeInjective(a: ErrorCode, b: ErrorCode)
    requires Code(a) == Code(b)
    ensures a == b
  {
  }

  /** Device type bits (`cl_device_type`). */
  const CL_DEVICE_TYPE_DEFAULT: bv64 := 1
  const CL_DEVICE_TYPE_CPU: bv64 := 2
  const CL_DEVICE_TYPE_GPU: bv64 := 4
  const CL_DEVICE_TYPE_ACCELERATOR: bv64 := 8
  const CL_DEVICE_TYPE_CUSTOM: bv64 := 16
  const CL_DEVICE_TYPE_ALL: bv64 := 0xFFFF_FFFF

  /** Command-queue property bits. */
  const CL_QUEUE_OUT_OF_ORDER_EXEC_MODE_ENABLE: bv64 := 1
  const CL_QUEUE_PROFILING_ENABLE: bv64 := 2

  /** Memory flag bits (`cl_mem_flags`). */
  const CL_MEM_READ_WRITE: bv64 := 1
  const CL_MEM_WRITE_ONLY: bv64 := 2
  const CL_MEM_READ_ONLY: bv64 := 4
  const CL_MEM_USE_HOST_PTR: bv64 := 8
  const CL_MEM_ALLOC_HOST_PTR: bv64 := 16
  const CL_MEM_COPY_HOST_PTR: bv64 := 32
  const CL_MEM_HOST_WRITE_ONLY: bv64 := 128
  const CL_MEM_HOST_READ_ONLY: bv64 := 256
  const CL_MEM_HOST_NO_ACCESS: bv64 := 512

  /** `CL_MEM_OBJECT_IMAGE2D`. */
  const CL_MEM_OBJECT_IMAGE2D: nat := 0x10F1

  /** Event execution status values; a negative status is an error. */
  const CL_COMPLETE: int := 0
  const CL_RUNNING: int := 1
  const CL_SUBMITTED: int := 2
  const CL_QUEUED: int := 3

  /**
   * A command handed to `clEnqueue*`, with the arguments the binding's checks
   * read.  Host buffers appear by their byte length (None: the argument was
   * null or undefined).  Values the binding obtains from the runtime or from
   * helpers it calls (buffer sizes, image dimensions, rectangle sizes) are
   * carried as the values those queries returned.
   */
  datatype Command =
    | NDRangeKernel(kernel: Handle, globals: Option<seq<U32>>)
    | Task(kernel: Handle)
    | WriteBuffer(mem: Handle, offset: U32, size: U32, host: Option<nat>)
    | ReadBuffer(mem: Handle, offset: U32, size: U32, host: Option<nat>)
    | WriteBufferRect(mem: Handle, bufferOrigin: seq<U32>, hostOrigin: seq<U32>,
                      region: seq<U32>, host: Option<nat>, bufferRectSize: int, hostRectSize: int)
    | ReadBufferRect(mem: Handle, bufferOrigin: seq<U32>, hostOrigin: seq<U32>,
                     region: seq<U32>, host: Option<nat>, bufferRectSize: int, hostRectSize: int)
    | CopyBuffer(src: Handle, dst: Handle, srcOffset: U32, dstOffset: U32, size: U32,
                 srcSize: nat, dstSize: nat)
    | CopyBufferRect(src: Handle, dst: Handle, srcOrigin: seq<U32>, dstOrigin: seq<U32>,
                     region: seq<U32>, srcSize: nat, dstSize: nat)
    | WriteImage(mem: Handle, origin: seq<U32>, region: seq<U32>, host: Option<nat>, imageRectSize: int)
    | ReadImage(mem: Handle, origin: seq<U32>, region: seq<U32>, host: Option<nat>, imageRectSize: int)
    | CopyImage(src: Handle, dst: Handle, srcOrigin: seq<U32>, dstOrigin: seq<U32>,
                region: seq<U32>, srcRectSize: int, dstRectSize: int)
    | CopyImageToBuffer(src: Handle, dst: Handle, srcOrigin: seq<U32>, region: seq<U32>,
                        imageWidth: nat, imageHeight: nat, elementSize: nat, dstSize: nat)
    | CopyBufferToImage(src: Handle, dst: Handle, srcOffset: U32, dstOrigin: seq<U32>,
                        region: seq<U32>, imageWidth: nat, imageHeight: nat, elementSize: nat, srcSize: nat)
    | MapBuffer(mem: Handle, offset: U32, size: U32)
    | MapImage(mem: Handle, origin: seq<U32>, region: seq<U32>)
    | UnmapMemObject(mem: Handle)
    | WaitForEvents

  /** A native call the binding issued. */
  datatype Call =
    | Release(handle: Handle)
    | Enqueue(queue: Handle, command: Command, waitList: seq<Handle>)
    | Marker(queue: Handle)
    | Barrier(queue: Handle)
    | WaitForEventsOnQueue(queue: Handle, waitList: seq<Handle>)
    | Flush(queue: Handle)
    | Finish(queue: Handle)
    | CreateCommandQueue(context: Handle, device: Handle, properties: bv64)
    | CreateSubBuffer(parent: Handle, flags: bv64, origin: U32, size: U32)

  /**
   * The runtime oracle.  `refCount` and `contextOf` answer the binding's
   * `CL_*_REFERENCE_COUNT` and `CL_*_CONTEXT` queries; `calls` logs what the
   * binding asked the runtime to do.
   */
  class Runtime {
    var refCount: map<Handle, nat>
    var contextOf: map<Handle, Handle>
    var calls: seq<Call>

    constructor (counts: map<Handle, nat>, contexts: map<Handle, Handle>)
      ensures refCount == counts && contextOf == contexts && calls == []
    {
      refCount := counts;
      contextOf := contexts;
      calls := [];
    }

    /**
     * The reference count a query reports, 0 for an unknown handle.  The
     * destructors query into an uninitialised local, so what a failed query
     * leaves there is undetermined; the model takes it as 0.
     */
    function RefCount(h: Handle): nat
      reads this
    {
      if h in refCount then refCount[h] else 0
    }

    /** The context a query reports, or None when the query fails (null or unknown handle). */
    function ContextOf(h: Handle): (r: Option<Handle>)
      reads this
      ensures h == NULL ==> r == None
    {
      if h != NULL && h in contextOf then Some(contextOf[h]) else None
    }

    /** `clRelease*`: logs the call and drops one reference. */
    method ReleaseHandle(h: Handle)
      modifies this`refCount, this`calls
      ensures calls == old(calls) + [Release(h)]
      ensures refCount == if old(RefCount(h)) > 0 then old(refCount)[h := old(RefCount(h)) - 1] else old(refCount)
    {
      calls := calls + [Release(h)];
      if RefCount(h) > 0 {
        refCount := refCount[h := RefCount(h) - 1];
      }
    }

    /** Any other native call: only logged; its status is an input of the caller. */
    method Issue(c: Call)
      modifies this`calls
      ensures calls == old(calls) + [c]
    {
      calls := calls + [c];
    }
  }
}
