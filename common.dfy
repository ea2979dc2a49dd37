/**
 * Shared vocabulary of the binding (common.h): the wrapper kinds and their
 * display names, the exception an OpenCL status is reported as, and the
 * first-match status-to-exception chains every native call ends with.
 */
module Common {
  import opened Wrappers
  import opened OpenCL

  /** The kind tag every wrapper carries (`CLObjType`). */
  datatype ObjType =
    | NoneType | PlatformType | DeviceType | ContextType | CommandQueueType
    | KernelType | ProgramType | SamplerType | EventType | MemoryObjectType
    | ExceptionType

  const MAX_WEBCL_TYPES: nat := 11

  /** The enumerator value of a kind, in declaration order. */
  function Ordinal(k: ObjType): (r: nat)
    ensures r < MAX_WEBCL_TYPES
  {
    match k
    case NoneType => 0
    case PlatformType => 1
    case DeviceType => 2
    case ContextType => 3
    case CommandQueueType => 4
    case KernelType => 5
    case ProgramType => 6
    case SamplerType => 7
    case EventType => 8
    case MemoryObjectType => 9
    case ExceptionType => 10
  }

  lemma OrdinalInjective(a: ObjType, b: ObjType)
    requires Ordinal(a) == Ordinal(b)
    ensures a == b
  {
  }

  /** The name table, indexed by enumerator value (`CLObjName`). */
  const CL_OBJ_NAMES: seq<string> :=
    ["UNKNOWN", "Platform", "Device", "Context", "CommandQueue", "Kernel",
     "Program", "Sampler", "Event", "MemoryObject", "Exception"]

  /** `getCLObjName`: the table entry for an in-range tag, the empty C string otherwise. */
  function GetCLObjName(t: nat): (r: string)
    ensures t < MAX_WEBCL_TYPES ==> |r| > 0
    ensures t >= MAX_WEBCL_TYPES ==> r == ""
  {
    if t < |CL_OBJ_NAMES| then CL_OBJ_NAMES[t] else ""
  }

  /** The name each kind is meant to display, written per kind. */
  function KindName(k: ObjType): string
  {
    match k
    case NoneType => "UNKNOWN"
    case PlatformType => "Platform"
    case DeviceType => "Device"
    case ContextType => "Context"
    case CommandQueueType => "CommandQueue"
    case KernelType => "Kernel"
    case ProgramType => "Program"
    case SamplerType => "Sampler"
    case EventType => "Event"
    case MemoryObjectType => "MemoryObject"
    case ExceptionType => "Exception"
  }

  /** The table lines up with the enumeration: every kind displays its own name. */
  lemma NameTableMatchesKinds(k: ObjType)
    ensures GetCLObjName(Ordinal(k)) == KindName(k)
  {
  }

  /**
   * What the binding throws: a WebCLException naming one OpenCL code, or
   * the generic "UNKNOWN ERROR".
   */
  datatype Thrown = Named(code: ErrorCode) | UnknownError

  /**
   * A run of `REQ_ERROR_THROW` lines after a failed native call: the first
   * code in the chain equal to `ret` is thrown; if none is, "UNKNOWN ERROR".
   */
  function ThrowChain(ret: int, chain: seq<ErrorCode>): (r: Thrown)
    ensures r.Named? ==> r.code in chain && Code(r.code) == ret
    ensures r == UnknownError <==> forall i :: 0 <= i < |chain| ==> Code(chain[i]) != ret
  {
    if chain == [] then UnknownError
    else if Code(chain[0]) == ret then Named(chain[0])
    else ThrowChain(ret, chain[1..])
  }

  /**
   * Because codes are distinct, the chain names a listed code exactly:
   * order and repetitions in the chain do not matter.
   */
  lemma {:induction false} ThrowChainNamesListed(e: ErrorCode, chain: seq<ErrorCode>)
    ensures ThrowChain(Code(e), chain) == (if e in chain then Named(e) else UnknownError)
  {
    if chain != [] {
      if Code(chain[0]) == Code(e) {
        CodeInjective(chain[0], e);
      } else {
        ThrowChainNamesListed(e, chain[1..]);
        assert e in chain <==> e in chain[1..];
      }
    }
  }

  /** The shared record of an asynchronous completion (`Baton`). */
  class Baton {
    var callback: Option<nat>
    var error: int
    var errorMsg: Option<string>
    var privInfo: Option<seq<bv8>>

    constructor ()
      ensures callback == None && error == CL_SUCCESS
      ensures errorMsg == None && privInfo == None
    {
      callback := None;
      error := CL_SUCCESS;
      errorMsg := None;
      privInfo := None;
    }
  }
}
