/**
 * The module-level entry points of webcl.cc that the model covers: how
 * `createContext` reads its arguments, the checks it runs before creating
 * a context, the mapping of the runtime's failure, and the wrapping of the
 * new context.  The registry functions of the same file are in `Registry`.
 */
module WebCL {
  import opened Wrappers
  import opened OpenCL
  import opened Common
  import opened Registry
  import Context

  /**
   * The overloads of `createContext`, after argument inspection.  The first
   * four create a plain context, the `GL` ones a context sharing with a
   * WebGL rendering context.  `Unsupported` is an object of any other shape;
   * `NoArgument` a first argument that is none of undefined, a number or an
   * object.
   */
  datatype ContextRequest =
    | FromType(deviceType: Option<U32>)
    | FromPlatform(platform: Handle, deviceType: Option<U32>)
    | FromDevice(device: Handle)
    | FromDevices(devices: seq<Handle>)
    | GLFromType(deviceType: Option<U32>)
    | GLFromPlatform(platform: Handle, deviceType: Option<U32>)
    | GLFromDevice(device: Handle)
    | GLFromDevices(devices: seq<Handle>)
    | Unsupported
    | NoArgument

  /** The device-type check of the GL overloads: anything above CUSTOM except ALL is refused. */
  predicate GLDeviceTypeRejected(deviceType: U32)
  {
    deviceType != CL_DEVICE_TYPE_ALL as nat && deviceType > CL_DEVICE_TYPE_CUSTOM as nat
  }

  /** Each named device type passes the check. */
  lemma NamedDeviceTypesAccepted(t: bv64)
    requires t in {CL_DEVICE_TYPE_DEFAULT, CL_DEVICE_TYPE_CPU, CL_DEVICE_TYPE_GPU, CL_DEVICE_TYPE_ACCELERATOR,
                   CL_DEVICE_TYPE_CUSTOM, CL_DEVICE_TYPE_ALL}
    ensures !GLDeviceTypeRejected(t as nat as U32)
  {
  }

  /**
   * The check compares the type as a number, not as a set of bits: a
   * combination including CUSTOM is refused, one without it is accepted.
   */
  lemma DeviceTypeComparedAsNumber()
    ensures GLDeviceTypeRejected((CL_DEVICE_TYPE_CPU | CL_DEVICE_TYPE_CUSTOM) as nat as U32)
    ensures !GLDeviceTypeRejected((CL_DEVICE_TYPE_CPU | CL_DEVICE_TYPE_GPU) as nat as U32)
  {
  }

  /** The device type an overload passes on: DEFAULT when the argument is absent. */
  function DeviceTypeOf(dt: Option<U32>): (r: U32)
    ensures dt.Some? ==> r == dt.value
    ensures dt.None? ==> r == CL_DEVICE_TYPE_DEFAULT as nat
  {
    if dt.None? then CL_DEVICE_TYPE_DEFAULT as nat else dt.value
  }

  /** What `createContext` refuses before any context is created. */
  function ContextPrecheck(req: ContextRequest): (r: Option<ErrorCode>)
    ensures r == Some(InvalidDeviceType) <==>
      (req.GLFromType? || req.GLFromPlatform?) && GLDeviceTypeRejected(DeviceTypeOf(req.deviceType))
    ensures r == Some(InvalidValue) <==>
      req.Unsupported? || ((req.FromDevices? || req.GLFromDevices?) && |req.devices| == 0)
    ensures r.Some? ==> r.value in {InvalidDeviceType, InvalidValue}
    ensures (req.FromType? || req.FromPlatform? || req.FromDevice? || req.GLFromDevice? || req.NoArgument?) ==> r.None?
  {
    match req
    case GLFromType(dt) => if GLDeviceTypeRejected(DeviceTypeOf(dt)) then Some(InvalidDeviceType) else None
    case GLFromPlatform(_, dt) => if GLDeviceTypeRejected(DeviceTypeOf(dt)) then Some(InvalidDeviceType) else None
    case FromDevices(ds) => if |ds| == 0 then Some(InvalidValue) else None
    case GLFromDevices(ds) => if |ds| == 0 then Some(InvalidValue) else None
    case Unsupported => Some(InvalidValue)
    case _ => None
  }

  /** The plain overloads never check the device type; only the runtime can refuse it. */
  lemma PlainOverloadsSkipTypeCheck(dt: Option<U32>, p: Handle)
    ensures ContextPrecheck(FromType(dt)).None? && ContextPrecheck(FromPlatform(p, dt)).None?
  {
  }

  const CreateContextErrors: seq<ErrorCode> :=
    [InvalidPlatform, InvalidProperty, InvalidValue, InvalidDevice, InvalidOperation,
     DeviceNotAvailable, DeviceNotFound, OutOfResources, OutOfHostMemory, InvalidGLSharegroupReferenceKHR]

  /**
   * The runtime's own INVALID_DEVICE_TYPE (what it answers to a bad type
   * that the plain overloads pass on) is not in the mapping and reaches
   * script as an unknown error.
   */
  lemma RuntimeDeviceTypeErrorUnnamed()
    ensures ThrowChain(Code(InvalidDeviceType), CreateContextErrors) == UnknownError
  {
    ThrowChainNamesListed(InvalidDeviceType, CreateContextErrors);
  }

  /** Every other failure of context creation is reported under its own name. */
  lemma ContextErrorsNamed(e: ErrorCode)
    requires e in CreateContextErrors
    ensures ThrowChain(Code(e), CreateContextErrors) == Named(e)
  {
    ThrowChainNamesListed(e, CreateContextErrors);
  }

  /**
   * As written, the new context keeps the WebGL rendering context only in
   * the overload taking a rendering context and one device.
   */
  predicate KeepsGLContextAsWritten(req: ContextRequest)
  {
    req.GLFromDevice?
  }

  /** Intended: every overload given a rendering context keeps it. */
  predicate KeepsGLContext(req: ContextRequest)
  {
    req.GLFromType? || req.GLFromPlatform? || req.GLFromDevice? || req.GLFromDevices?
  }

  /**
   * As written, a context made from a rendering context and a device list
   * refuses every texture with INVALID_CONTEXT; the intended one accepts it.
   */
  lemma GLDeviceListContextRefusesTextures(d: Handle)
    ensures Context.GLTextureFailure(true, KeepsGLContextAsWritten(GLFromDevices([d])), 0) == Some(InvalidContext)
    ensures Context.GLTextureFailure(true, KeepsGLContext(GLFromDevices([d])), 0).None?
  {
  }

  /**
   * As written, the other three GL overloads lose the rendering context:
   * whatever the mip level, a texture is refused with INVALID_CONTEXT; the
   * intended rule never refuses it for that reason.
   */
  lemma GLContextLostAsWritten(req: ContextRequest, miplevel: U32)
    requires req.GLFromType? || req.GLFromPlatform? || req.GLFromDevices?
    ensures Context.GLTextureFailure(true, KeepsGLContextAsWritten(req), miplevel) == Some(InvalidContext)
    ensures Context.GLTextureFailure(true, KeepsGLContext(req), miplevel) != Some(InvalidContext)
  {
  }

  /** How `createContext` ends. */
  datatype ContextResult = ContextCreated(context: WebCLObject) | ContextRaised(error: Thrown)

  /**
   * `createContext` after argument inspection: the checks, then the
   * runtime's answer (`ret`, `created`) mapped to an exception or wrapped
   * as a registered context.  A first argument of no recognised kind
   * reaches no runtime call and yields a context with no handle.
   * `corrected` selects which overloads keep the rendering context.
   */
  method CreateContext(req: ContextRequest, ret: int, created: Handle, corrected: bool, reg: Registry)
    returns (r: ContextResult)
    modifies reg`entries
    ensures ContextPrecheck(req).Some? ==> r == ContextRaised(Named(ContextPrecheck(req).value)) && reg.entries == old(reg.entries)
    ensures req.NoArgument? ==>
      r.ContextCreated? && fresh(r.context) && r.context.handle == NULL && reg.entries == old(reg.entries)
    ensures ContextPrecheck(req).None? && !req.NoArgument? && ret != CL_SUCCESS ==>
      r == ContextRaised(ThrowChain(ret, CreateContextErrors)) && reg.entries == old(reg.entries)
    ensures ContextPrecheck(req).None? && !req.NoArgument? && ret == CL_SUCCESS ==>
      && r.ContextCreated? && fresh(r.context) && r.context.handle == created
      && reg.entries == (if created == NULL then old(reg.entries) else old(reg.entries)[created := r.context])
    ensures r.ContextCreated? ==> r.context.kind == ContextType
    ensures r.ContextCreated? ==>
      r.context.webglContext == if corrected then KeepsGLContext(req) else KeepsGLContextAsWritten(req)
    ensures r.ContextCreated? && corrected && KeepsGLContext(req) ==>
      forall m: U32 :: Context.GLTextureFailure(true, r.context.webglContext, m) != Some(InvalidContext)
    ensures r.ContextCreated? && !corrected && (req.GLFromType? || req.GLFromPlatform? || req.GLFromDevices?) ==>
      forall m: U32 :: Context.GLTextureFailure(true, r.context.webglContext, m) == Some(InvalidContext)
  {
    var pre := ContextPrecheck(req);
    if pre.Some? {
      return ContextRaised(Named(pre.value));
    }
    var h := if req.NoArgument? then NULL else created;
    if !req.NoArgument? && ret != CL_SUCCESS {
      return ContextRaised(ThrowChain(ret, CreateContextErrors));
    }
    var c := Wrap(reg, ContextType, h);
    c.webglContext := if corrected then KeepsGLContext(req) else KeepsGLContextAsWritten(req);
    r := ContextCreated(c);
  }
}
