/**
 * The context wrapper (context.cc): its destruction, `releaseAll`, device
 * discovery in `getInfo`, device selection and the out-of-order check in
 * `createCommandQueue`, and the argument checks of
 * `getSupportedImageFormats` and `createFromGLTexture`.
 */
module Context {
  import opened Wrappers
  import opened OpenCL
  import opened Common
  import opened Registry

  /** `release`: the reference-count destructor, nothing more. */
  method Release(c: WebCLObject, reg: Registry, rt: Runtime)
    requires c.kind == ContextType
    modifies c`handle, reg`entries, rt`refCount, rt`calls
    ensures var st := DestroyStep(c.kind, old(c.handle), old(rt.RefCount(c.handle)));
      && c.handle == st.handle
      && (st.handle == NULL <==> old(c.handle) == NULL || old(rt.RefCount(c.handle)) == 1)
      && rt.calls == old(rt.calls) + (if old(c.handle) != NULL then [Call.Release(old(c.handle))] else [])
      && reg.entries == (if st.unregistered && !reg.atExit then Without(old(reg.entries), c) else old(reg.entries))
      && rt.refCount == (if st.released && old(rt.RefCount(c.handle)) > 0
                         then old(rt.refCount)[old(c.handle) := old(rt.RefCount(c.handle)) - 1]
                         else old(rt.refCount))
  {
    c.Destructor(reg, rt);
  }

  /**
   * `releaseAll`: `AtExit(NULL)` names node's at-exit hook registration
   * (this file opens `namespace node`), which runs nothing at the call; so
   * only the context's own destructor takes effect, and the registry and
   * its teardown flag are left to it.
   */
  method ReleaseAll(c: WebCLObject, reg: Registry, rt: Runtime)
    requires c.kind == ContextType
    modifies c`handle, reg`entries, rt`refCount, rt`calls
    ensures reg.atExit == old(reg.atExit)
    ensures var st := DestroyStep(c.kind, old(c.handle), old(rt.RefCount(c.handle)));
      && c.handle == st.handle
      && rt.calls == old(rt.calls) + (if st.released then [Call.Release(old(c.handle))] else [])
      && reg.entries == (if st.unregistered && !reg.atExit then Without(old(reg.entries), c) else old(reg.entries))
      && rt.refCount == (if st.released && old(rt.RefCount(c.handle)) > 0
                         then old(rt.refCount)[old(c.handle) := old(rt.RefCount(c.handle)) - 1]
                         else old(rt.refCount))
  {
    c.Destructor(reg, rt);
  }

  const ContextInfoErrors: seq<ErrorCode> := [InvalidContext, InvalidValue, OutOfResources, OutOfHostMemory]

  /** The `getInfo` parameters: two counts, the device list, the property list, anything else. */
  datatype ContextInfo = ReferenceCount | NumDevices | Devices | Properties | OtherInfo

  /** What `getInfo` returns. */
  datatype ContextInfoResult =
    | Number(n: int)
    | Numbers(ns: seq<int>)
    | Objects(objs: seq<WebCLObject?>)
    | InfoRaised(error: Thrown)

  /**
   * The device array of `getInfo(CL_CONTEXT_DEVICES)`: a hole for a null
   * handle, otherwise the registered wrapper or a new one.  Afterwards every
   * listed device is held by its slot, and earlier registrations survive.
   */
  method WrapDevices(devices: seq<Handle>, reg: Registry) returns (objs: seq<WebCLObject?>)
    modifies reg`entries
    ensures |objs| == |devices|
    ensures forall i :: 0 <= i < |devices| ==> (objs[i] == null <==> devices[i] == NULL)
    ensures forall i :: 0 <= i < |devices| && devices[i] != NULL ==> objs[i] != null && Holds(reg.entries, devices[i], objs[i])
    ensures forall i :: 0 <= i < |devices| && devices[i] in old(reg.entries) && devices[i] != NULL ==>
      objs[i] == old(reg.entries)[devices[i]]
    ensures forall h :: h in old(reg.entries) ==> h in reg.entries && reg.entries[h] == old(reg.entries)[h]
  {
    objs := [];
    var i := 0;
    while i < |devices|
      invariant 0 <= i <= |devices| && |objs| == i
      invariant forall h :: h in old(reg.entries) ==> h in reg.entries && reg.entries[h] == old(reg.entries)[h]
      invariant forall k :: 0 <= k < i ==> (objs[k] == null <==> devices[k] == NULL)
      invariant forall k :: 0 <= k < i && devices[k] != NULL ==> objs[k] != null && Holds(reg.entries, devices[k], objs[k])
      invariant forall k :: 0 <= k < i && devices[k] in old(reg.entries) && devices[k] != NULL ==>
        objs[k] == old(reg.entries)[devices[k]]
    {
      var w: WebCLObject? := null;
      if devices[i] != NULL {
        w := Discover(reg, devices[i], DeviceType);
      }
      objs := objs + [w];
      i := i + 1;
    }
  }

  /** `sizeof(cl_context_properties)` on a 64-bit host. */
  const PROPERTY_BYTES: nat := 8

  /**
   * The array `getInfo(CL_CONTEXT_PROPERTIES)` returns for the runtime's
   * property list `props`.  As written (`corrected` false) the size query's
   * byte count is used as the entry count, so the array is `PROPERTY_BYTES`
   * times too long and its tail is read from memory the runtime never wrote
   * (modelled as 0).  Each entry goes through `(int32_t)` and `JS_INT`.
   */
  function PropertyArray(props: seq<int>, corrected: bool): (ns: seq<int>)
    ensures |ns| == if corrected then |props| else PROPERTY_BYTES * |props|
    ensures forall i :: 0 <= i < |props| ==> ns[i] == JsInt(props[i])
  {
    var n := if corrected then |props| else PROPERTY_BYTES * |props|;
    seq(n, i requires 0 <= i < n => if i < |props| then JsInt(props[i]) else 0)
  }

  /**
   * As written, every non-empty property list comes back with
   * `(PROPERTY_BYTES - 1) * |props|` entries past its end.
   */
  lemma PropertyArrayOverrunsAsWritten(props: seq<int>)
    requires props != []
    ensures |PropertyArray(props, false)| - |props| == (PROPERTY_BYTES - 1) * |props| > 0
  {
  }

  /** Corrected, the array is the property list itself, each entry reduced modulo 2^32. */
  lemma PropertyArrayExact(props: seq<int>)
    ensures |PropertyArray(props, true)| == |props|
    ensures forall i :: 0 <= i < |props| ==> PropertyArray(props, true)[i] % TWO_32 == props[i] % TWO_32
    ensures forall i :: 0 <= i < |props| && 0 <= props[i] < TWO_32 ==> PropertyArray(props, true)[i] == props[i]
  {
  }

  /**
   * `getInfo`: `ret` and the values are the runtime's answer to the query;
   * `corrected` selects the property array as written or corrected.
   */
  method GetInfo(param: ContextInfo, ret: int, count: U32, devices: seq<Handle>, props: seq<int>, corrected: bool,
                 reg: Registry)
    returns (r: ContextInfoResult)
    modifies reg`entries
    ensures param == OtherInfo ==> r == InfoRaised(Named(InvalidValue))
    ensures param != OtherInfo && ret != CL_SUCCESS ==> r == InfoRaised(ThrowChain(ret, ContextInfoErrors))
    ensures param != Devices || ret != CL_SUCCESS ==> reg.entries == old(reg.entries)
    ensures (param == ReferenceCount || param == NumDevices) && ret == CL_SUCCESS ==> r == Number(count)
    ensures param == Properties && ret == CL_SUCCESS ==> r == Numbers(PropertyArray(props, corrected))
    ensures param == Devices && ret == CL_SUCCESS ==>
      && r.Objects? && |r.objs| == |devices|
      && (forall i :: 0 <= i < |devices| ==> (r.objs[i] == null <==> devices[i] == NULL))
      && (forall i :: 0 <= i < |devices| && devices[i] != NULL ==> r.objs[i] != null && Holds(reg.entries, devices[i], r.objs[i]))
      && (forall i :: 0 <= i < |devices| && devices[i] in old(reg.entries) && devices[i] != NULL ==>
            r.objs[i] == old(reg.entries)[devices[i]])
  {
    if param == OtherInfo {
      return InfoRaised(Named(InvalidValue));
    }
    if ret != CL_SUCCESS {
      return InfoRaised(ThrowChain(ret, ContextInfoErrors));
    }
    match param
    case ReferenceCount => r := Number(count);
    case NumDevices => r := Number(count);
    case Properties => r := Numbers(PropertyArray(props, corrected));
    case Devices =>
      var objs := WrapDevices(devices, reg);
      r := Objects(objs);
  }

  // ---------------------------------------------------------------------
  // createCommandQueue: choosing the device
  // ---------------------------------------------------------------------

  /** The first argument of `createCommandQueue`: null, a device object, or anything else. */
  datatype QueueTarget = NullDevice | GivenDevice(device: Handle) | AutoDevice

  /** The first index from `j` on whose device type is exactly GPU, or `|types|`. */
  function FirstGpuFrom(types: seq<bv64>, j: nat): (i: nat)
    requires j <= |types|
    ensures j <= i <= |types|
    ensures i < |types| ==> types[i] == CL_DEVICE_TYPE_GPU
    ensures forall k :: j <= k < i ==> types[k] != CL_DEVICE_TYPE_GPU
    decreases |types| - j
  {
    if j == |types| then j
    else if types[j] == CL_DEVICE_TYPE_GPU then j
    else FirstGpuFrom(types, j + 1)
  }

  /** Two property sets share a bit. */
  predicate Intersects(a: bv64, b: bv64)
  {
    a & b != 0
  }

  /**
   * The first index from `j` on whose queue-properties query failed or whose
   * queue properties share a bit with `props`, or `|qrets|`.
   */
  function FirstMatchFrom(qprops: seq<bv64>, qrets: seq<int>, props: bv64, j: nat): (i: nat)
    requires |qprops| == |qrets| && j <= |qrets|
    ensures j <= i <= |qrets|
    ensures i < |qrets| ==> qrets[i] != CL_SUCCESS || Intersects(qprops[i], props)
    ensures forall k :: j <= k < i ==> qrets[k] == CL_SUCCESS && !Intersects(qprops[k], props)
    decreases |qrets| - j
  {
    if j == |qrets| then j
    else if qrets[j] != CL_SUCCESS || Intersects(qprops[j], props) then j
    else FirstMatchFrom(qprops, qrets, props, j + 1)
  }

  const DeviceInfoErrors: seq<ErrorCode> := [InvalidDevice, InvalidValue, OutOfResources, OutOfHostMemory]

  /** How device selection ends. */
  datatype Selection = Selected(device: Handle) | SelectionFailed(error: Thrown)

  /**
   * What the size-returned argument of a `CL_CONTEXT_NUM_DEVICES` query
   * reports: the byte size of the `cl_uint` answer, not the device count.
   */
  const NUM_DEVICES_BYTES: nat := 4

  /** The native device array the selection runs over, or the status of the failed list query. */
  datatype DeviceList = ListFailed(ret: int) | Listed(slots: seq<Handle>)

  /**
   * How many slots `createCommandQueue` allocates for the device list.  As
   * written it is `reported`, the size-returned answer of the count query
   * (`NUM_DEVICES_BYTES` on a conforming runtime, 0 when that query fails);
   * corrected it is the context's device count.
   */
  function SlotCount(corrected: bool, devices: seq<Handle>, reported: nat): nat
  {
    if corrected then |devices| else reported
  }

  /**
   * The device-list query into `nSlots` slots.  It fails with the runtime's
   * status, or with INVALID_VALUE when the context's devices do not fit;
   * otherwise the devices fill the leading slots and the rest keep whatever
   * the freshly allocated memory held (`stale`, a missing value reading as
   * null).
   */
  function DeviceArray(devices: seq<Handle>, nSlots: nat, stale: seq<Handle>, listRet: int): (q: DeviceList)
    ensures listRet != CL_SUCCESS ==> q == ListFailed(listRet)
    ensures listRet == CL_SUCCESS && |devices| > nSlots ==> q == ListFailed(Code(InvalidValue))
    ensures q.Listed? <==> listRet == CL_SUCCESS && |devices| <= nSlots
    ensures q.Listed? ==> |q.slots| == nSlots && q.slots[..|devices|] == devices
    ensures q.Listed? ==> forall k :: |devices| <= k < nSlots ==>
      q.slots[k] == (if k - |devices| < |stale| then stale[k - |devices|] else NULL)
  {
    if listRet != CL_SUCCESS then ListFailed(listRet)
    else if |devices| > nSlots then ListFailed(Code(InvalidValue))
    else
      var pad := nSlots - |devices|;
      Listed(devices + seq(pad, k requires 0 <= k < pad => if k < |stale| then stale[k] else NULL))
  }

  /** Corrected, the array is exactly the context's device list. */
  lemma CorrectedArrayIsDeviceList(devices: seq<Handle>, reported: nat, stale: seq<Handle>)
    ensures DeviceArray(devices, SlotCount(true, devices, reported), stale, CL_SUCCESS) == Listed(devices)
  {
    var q := DeviceArray(devices, |devices|, stale, CL_SUCCESS);
    assert q.slots == q.slots[..|devices|];
  }

  /**
   * As written, a context with more devices than `NUM_DEVICES_BYTES` never
   * gets a device list on a conforming runtime: the query refuses the
   * buffer, and selection throws INVALID_VALUE.
   */
  lemma ManyDevicesRefusedAsWritten(devices: seq<Handle>, stale: seq<Handle>)
    requires |devices| > NUM_DEVICES_BYTES
    ensures DeviceArray(devices, SlotCount(false, devices, NUM_DEVICES_BYTES), stale, CL_SUCCESS)
            == ListFailed(Code(InvalidValue))
    ensures DeviceArray(devices, SlotCount(true, devices, NUM_DEVICES_BYTES), stale, CL_SUCCESS).Listed?
  {
  }

  /** The per-slot answers cover the slots of a listed array. */
  predicate AnswersFit(list: DeviceList, types: seq<bv64>, qprops: seq<bv64>, qrets: seq<int>)
  {
    list.Listed? ==> |types| == |list.slots| && |qprops| == |list.slots| && |qrets| == |list.slots|
  }

  /** `devices[0]`; an empty array reads nothing, modelled as the null device. */
  function FirstDevice(slots: seq<Handle>): Handle
  {
    if |slots| == 0 then NULL else slots[0]
  }

  /** The first GPU in the array, else the first slot. */
  function GpuOrFirst(slots: seq<Handle>, types: seq<bv64>): Handle
    requires |types| == |slots|
  {
    var i := FirstGpuFrom(types, 0);
    if i < |slots| then slots[i] else FirstDevice(slots)
  }

  /**
   * The device `createCommandQueue` settles on, over the device array
   * `list`.  `types[j]`, `qprops[j]` and `qrets[j]` answer the per-slot type
   * and queue-property queries, a stale slot included.
   */
  function SelectDevice(target: QueueTarget, props: U32, list: DeviceList,
                        types: seq<bv64>, qprops: seq<bv64>, qrets: seq<int>): (s: Selection)
    requires AnswersFit(list, types, qprops, qrets)
    ensures target.GivenDevice? ==> s == Selected(target.device)
    ensures !target.GivenDevice? && list.ListFailed? ==> s == SelectionFailed(ThrowChain(list.ret, ContextInfoErrors))
    ensures !target.GivenDevice? && list.Listed? && props == 0 ==>
      var i := FirstGpuFrom(types, 0);
      s == Selected(if i < |list.slots| then list.slots[i] else FirstDevice(list.slots))
    ensures target.NullDevice? && list.Listed? && props != 0 ==> s == Selected(FirstDevice(list.slots))
    ensures target.AutoDevice? && list.Listed? && props != 0 ==>
      var i := FirstMatchFrom(qprops, qrets, props as bv64, 0);
      s == (if i == |list.slots| then Selected(NULL)
            else if qrets[i] != CL_SUCCESS then SelectionFailed(ThrowChain(qrets[i], DeviceInfoErrors))
            else Selected(list.slots[i]))
  {
    match target
    case GivenDevice(d) => Selected(d)
    case NullDevice =>
      if list.ListFailed? then SelectionFailed(ThrowChain(list.ret, ContextInfoErrors))
      else if props == 0 then Selected(GpuOrFirst(list.slots, types))
      else Selected(FirstDevice(list.slots))
    case AutoDevice =>
      if list.ListFailed? then SelectionFailed(ThrowChain(list.ret, ContextInfoErrors))
      else if props == 0 then Selected(GpuOrFirst(list.slots, types))
      else
        var i := FirstMatchFrom(qprops, qrets, props as bv64, 0);
        if i == |list.slots| then Selected(NULL)
        else if qrets[i] != CL_SUCCESS then SelectionFailed(ThrowChain(qrets[i], DeviceInfoErrors))
        else Selected(list.slots[i])
  }

  /** With no properties requested, a GPU is chosen whenever the array holds one. */
  lemma NoPropertiesPrefersGpu(target: QueueTarget, slots: seq<Handle>,
                               types: seq<bv64>, qprops: seq<bv64>, qrets: seq<int>, k: nat)
    requires AnswersFit(Listed(slots), types, qprops, qrets)
    requires !target.GivenDevice?
    requires k < |slots| && types[k] == CL_DEVICE_TYPE_GPU
    ensures exists j :: 0 <= j <= k && types[j] == CL_DEVICE_TYPE_GPU
                        && SelectDevice(target, 0, Listed(slots), types, qprops, qrets) == Selected(slots[j])
  {
    var j := FirstGpuFrom(types, 0);
    assert j <= k;
  }

  /** A requested property set selects a device only if that slot supports one of the bits. */
  lemma AutoSelectionSupportsProperties(props: U32, list: DeviceList,
                                        types: seq<bv64>, qprops: seq<bv64>, qrets: seq<int>, d: Handle)
    requires AnswersFit(list, types, qprops, qrets)
    requires props != 0 && d != NULL
    requires SelectDevice(AutoDevice, props, list, types, qprops, qrets) == Selected(d)
    ensures list.Listed?
    ensures exists i :: 0 <= i < |list.slots| && list.slots[i] == d && Intersects(qprops[i], props as bv64)
  {
    var i := FirstMatchFrom(qprops, qrets, props as bv64, 0);
    assert i < |list.slots| && list.slots[i] == d;
  }

  /**
   * Corrected, an automatically chosen device is one of the context's own
   * devices and supports a requested bit.
   */
  lemma CorrectedAutoSelectionFromContext(props: U32, devices: seq<Handle>, reported: nat, stale: seq<Handle>,
                                          types: seq<bv64>, qprops: seq<bv64>, qrets: seq<int>, d: Handle)
    requires |types| == |devices| && |qprops| == |devices| && |qrets| == |devices|
    requires props != 0 && d != NULL
    requires SelectDevice(AutoDevice, props, DeviceArray(devices, SlotCount(true, devices, reported), stale, CL_SUCCESS),
                          types, qprops, qrets) == Selected(d)
    ensures exists i :: 0 <= i < |devices| && devices[i] == d && Intersects(qprops[i], props as bv64)
  {
    CorrectedArrayIsDeviceList(devices, reported, stale);
    AutoSelectionSupportsProperties(props, Listed(devices), types, qprops, qrets, d);
  }

  /**
   * As written, on a one-device context whose device lacks the requested
   * bit, the loop goes on to query slot 1, which no device filled; a runtime
   * that rejects that handle makes the request throw INVALID_DEVICE, where
   * the corrected loop ends with no device.
   */
  lemma StaleSlotQueriedAsWritten(d: Handle, stale: seq<Handle>, qprops: seq<bv64>, qrets: seq<int>)
    requires |qprops| == NUM_DEVICES_BYTES && |qrets| == NUM_DEVICES_BYTES
    requires qrets[0] == CL_SUCCESS && qprops[0] == CL_QUEUE_PROFILING_ENABLE && qrets[1] == Code(InvalidDevice)
    ensures DeviceArray([d], SlotCount(false, [d], NUM_DEVICES_BYTES), stale, CL_SUCCESS).Listed?
    ensures SelectDevice(AutoDevice, CL_QUEUE_OUT_OF_ORDER_EXEC_MODE_ENABLE as U32,
                         DeviceArray([d], SlotCount(false, [d], NUM_DEVICES_BYTES), stale, CL_SUCCESS),
                         qprops, qprops, qrets) == SelectionFailed(Named(InvalidDevice))
    ensures SelectDevice(AutoDevice, CL_QUEUE_OUT_OF_ORDER_EXEC_MODE_ENABLE as U32,
                         DeviceArray([d], SlotCount(true, [d], NUM_DEVICES_BYTES), stale, CL_SUCCESS),
                         qprops[..1], qprops[..1], qrets[..1]) == Selected(NULL)
  {
    assert FirstMatchFrom(qprops, qrets, CL_QUEUE_OUT_OF_ORDER_EXEC_MODE_ENABLE, 0) == 1;
    ThrowChainNamesListed(InvalidDevice, DeviceInfoErrors);
    CorrectedArrayIsDeviceList([d], NUM_DEVICES_BYTES, stale);
    assert FirstMatchFrom(qprops[..1], qrets[..1], CL_QUEUE_OUT_OF_ORDER_EXEC_MODE_ENABLE, 0) == 1;
  }

  /**
   * The selection loops of `createCommandQueue`, run over the device array
   * and the runtime's per-slot answers.
   */
  method SelectQueueDevice(target: QueueTarget, props: U32, list: DeviceList,
                           types: seq<bv64>, qprops: seq<bv64>, qrets: seq<int>) returns (s: Selection)
    requires AnswersFit(list, types, qprops, qrets)
    ensures s == SelectDevice(target, props, list, types, qprops, qrets)
  {
    if target.GivenDevice? {
      return Selected(target.device);
    }
    if list.ListFailed? {
      return SelectionFailed(ThrowChain(list.ret, ContextInfoErrors));
    }
    var slots := list.slots;
    var device := if target.NullDevice? then FirstDevice(slots) else NULL;
    var found := false;
    if props == 0 {
      device := FirstDevice(slots);
      var j := 0;
      while j < |slots|
        invariant 0 <= j <= |slots|
        invariant FirstGpuFrom(types, j) == FirstGpuFrom(types, 0)
        invariant device == FirstDevice(slots)
      {
        if types[j] == CL_DEVICE_TYPE_GPU {
          device := slots[j];
          break;
        }
        j := j + 1;
      }
      found := true;
      assert device == GpuOrFirst(slots, types);
    }
    if target.AutoDevice? {
      var j := 0;
      while j < |slots| && !found
        invariant 0 <= j <= |slots|
        invariant !found ==> props != 0 && device == NULL && FirstMatchFrom(qprops, qrets, props as bv64, j) == FirstMatchFrom(qprops, qrets, props as bv64, 0)
        invariant found && props != 0 ==> j > 0 && FirstMatchFrom(qprops, qrets, props as bv64, 0) == j - 1
                                           && qrets[j - 1] == CL_SUCCESS && device == slots[j - 1]
        invariant found && props == 0 ==> device == GpuOrFirst(slots, types)
      {
        if qrets[j] != CL_SUCCESS {
          return SelectionFailed(ThrowChain(qrets[j], DeviceInfoErrors));
        }
        if Intersects(qprops[j], props as bv64) {
          device := slots[j];
          found := true;
        }
        j := j + 1;
      }
    }
    s := Selected(device);
  }

  // ---------------------------------------------------------------------
  // createCommandQueue: the out-of-order check and the creation
  // ---------------------------------------------------------------------

  /**
   * The out-of-order check as written: the device's queue properties are
   * read into an `int`, and only a zero value counts as "no out-of-order
   * support".  `deviceQProps` is None when that query fails (the int stays 0).
   */
  predicate OutOfOrderRejectedAsWritten(props: U32, deviceQProps: Option<bv64>)
  {
    (props as bv64) & CL_QUEUE_OUT_OF_ORDER_EXEC_MODE_ENABLE != 0
    && deviceQProps.GetOr(0) & 0xFFFF_FFFF == 0
  }

  /** A device that supports profiling but not out-of-order execution passes the check as written. */
  lemma ProfilingOnlyDevicePassesAsWritten()
    ensures !OutOfOrderRejectedAsWritten(CL_QUEUE_OUT_OF_ORDER_EXEC_MODE_ENABLE as U32, Some(CL_QUEUE_PROFILING_ENABLE))
    ensures CL_QUEUE_PROFILING_ENABLE & CL_QUEUE_OUT_OF_ORDER_EXEC_MODE_ENABLE == 0
  {
  }

  /** The intended check: out-of-order requested, and the device lacks that very bit. */
  predicate OutOfOrderRejected(props: U32, deviceQProps: Option<bv64>)
  {
    (props as bv64) & CL_QUEUE_OUT_OF_ORDER_EXEC_MODE_ENABLE != 0
    && deviceQProps.GetOr(0) & CL_QUEUE_OUT_OF_ORDER_EXEC_MODE_ENABLE == 0
  }

  /** The intended check accepts exactly the requests the device can honour. */
  lemma OutOfOrderRejectedMeaning(props: U32, q: bv64)
    ensures !OutOfOrderRejected(props, Some(q)) <==>
      ((props as bv64) & CL_QUEUE_OUT_OF_ORDER_EXEC_MODE_ENABLE == 0 || q & CL_QUEUE_OUT_OF_ORDER_EXEC_MODE_ENABLE != 0)
    ensures OutOfOrderRejected(props, None) <==> (props as bv64) & CL_QUEUE_OUT_OF_ORDER_EXEC_MODE_ENABLE != 0
  {
  }

  /**
   * The corrected check rejects everything the written one does.  When the
   * query fails, as a conforming runtime's must for a 4-byte buffer, both
   * refuse every out-of-order request.
   */
  lemma OutOfOrderWrittenIsLaxer(props: U32, q: Option<bv64>)
    ensures OutOfOrderRejectedAsWritten(props, q) ==> OutOfOrderRejected(props, q)
    ensures OutOfOrderRejectedAsWritten(props, None) <==> (props as bv64) & CL_QUEUE_OUT_OF_ORDER_EXEC_MODE_ENABLE != 0
  {
    assert q.GetOr(0) & 0xFFFF_FFFF == 0 ==> q.GetOr(0) & 1 == 0 by {
      var v := q.GetOr(0);
      if v & 0xFFFF_FFFF == 0 {
        assert v & 1 == (v & 0xFFFF_FFFF) & 1;
      }
    }
  }

  /** The out-of-order check as written or corrected. */
  predicate OutOfOrderCheck(corrected: bool, props: U32, deviceQProps: Option<bv64>)
  {
    if corrected then OutOfOrderRejected(props, deviceQProps) else OutOfOrderRejectedAsWritten(props, deviceQProps)
  }

  const CreateQueueErrors: seq<ErrorCode> :=
    [InvalidContext, InvalidDevice, InvalidValue, InvalidQueueProperties, OutOfResources, OutOfHostMemory]

  /** How `createCommandQueue` ends. */
  datatype QueueResult = QueueCreated(queue: WebCLObject) | QueueRaised(error: Thrown)

  /**
   * `createCommandQueue` after argument coercion: list the context's
   * devices into the native array (`reported` answers the count query's
   * size, `stale` the array's unwritten slots, `listRet` the list query),
   * select the device, check out-of-order support (`deviceQProps` answers
   * that query for the selected device), create the queue (`createRet` and
   * `created` are the runtime's answer) and wrap it.  `corrected` selects
   * the slot count and the out-of-order check.
   */
  method CreateCommandQueue(c: WebCLObject, target: QueueTarget, props: U32, devices: seq<Handle>, reported: nat,
                            stale: seq<Handle>, listRet: int, types: seq<bv64>, qprops: seq<bv64>, qrets: seq<int>,
                            deviceQProps: Option<bv64>, createRet: int, created: Handle, corrected: bool,
                            reg: Registry, rt: Runtime)
    returns (r: QueueResult)
    requires AnswersFit(DeviceArray(devices, SlotCount(corrected, devices, reported), stale, listRet), types, qprops, qrets)
    modifies reg`entries, rt`calls
    ensures var s := SelectDevice(target, props, DeviceArray(devices, SlotCount(corrected, devices, reported), stale, listRet),
                                  types, qprops, qrets);
      && (s.SelectionFailed? ==> r == QueueRaised(s.error) && rt.calls == old(rt.calls) && reg.entries == old(reg.entries))
      && (s.Selected? && OutOfOrderCheck(corrected, props, deviceQProps) ==>
            r == QueueRaised(Named(InvalidValue)) && rt.calls == old(rt.calls) && reg.entries == old(reg.entries))
      && (s.Selected? && !OutOfOrderCheck(corrected, props, deviceQProps) ==>
            && rt.calls == old(rt.calls) + [Call.CreateCommandQueue(c.handle, s.device, props as bv64)]
            && (createRet != CL_SUCCESS ==>
                  r == QueueRaised(ThrowChain(createRet, CreateQueueErrors)) && reg.entries == old(reg.entries))
            && (createRet == CL_SUCCESS ==>
                  && r.QueueCreated? && fresh(r.queue) && r.queue.kind == CommandQueueType && r.queue.handle == created
                  && reg.entries == (if created == NULL then old(reg.entries) else old(reg.entries)[created := r.queue])))
  {
    var list := DeviceArray(devices, SlotCount(corrected, devices, reported), stale, listRet);
    var s := SelectQueueDevice(target, props, list, types, qprops, qrets);
    if s.SelectionFailed? {
      return QueueRaised(s.error);
    }
    if OutOfOrderCheck(corrected, props, deviceQProps) {
      return QueueRaised(ThrowChain(Code(InvalidValue), [InvalidValue]));
    }
    rt.Issue(Call.CreateCommandQueue(c.handle, s.device, props as bv64));
    if createRet != CL_SUCCESS {
      return QueueRaised(ThrowChain(createRet, CreateQueueErrors));
    }
    var q := Wrap(reg, CommandQueueType, created);
    r := QueueCreated(q);
  }

  // ---------------------------------------------------------------------
  // Argument checks
  // ---------------------------------------------------------------------

  /** The largest flag value `getSupportedImageFormats` accepts: `CL_MEM_HOST_NO_ACCESS << 1`. */
  const MAX_FORMAT_FLAGS: nat := (CL_MEM_HOST_NO_ACCESS << 1) as nat

  /** The native query `getSupportedImageFormats` makes, or its rejection. */
  datatype FormatQuery = FormatsRejected(error: ErrorCode) | FormatsQuery(flags: nat, imageType: nat)

  /**
   * `getSupportedImageFormats` arguments: absent flags mean READ_WRITE; the
   * image type is IMAGE2D unless both arguments are given.
   */
  function ImageFormatsQuery(flags: Option<U32>, imageType: Option<U32>): (r: FormatQuery)
    ensures r.FormatsRejected? <==> flags.Some? && flags.value > MAX_FORMAT_FLAGS
    ensures r.FormatsRejected? ==> r.error == InvalidValue
    ensures r.FormatsQuery? ==> r.flags <= MAX_FORMAT_FLAGS
    ensures r.FormatsQuery? ==> r.flags == (if flags.None? then CL_MEM_READ_WRITE as nat else flags.value)
    ensures r.FormatsQuery? ==> r.imageType == (if flags.Some? && imageType.Some? then imageType.value else CL_MEM_OBJECT_IMAGE2D)
  {
    var f := if flags.None? then CL_MEM_READ_WRITE as nat else flags.value;
    var t := if flags.None? || imageType.None? then CL_MEM_OBJECT_IMAGE2D else imageType.value;
    if f > MAX_FORMAT_FLAGS then FormatsRejected(InvalidValue) else FormatsQuery(f, t)
  }

  /**
   * The checks `createFromGLTexture` makes before the native call, in their
   * order.  The mip level is coerced to an unsigned 32-bit value and stored
   * in a signed one, so it is negative exactly from 2^31 on.
   */
  function GLTextureFailure(textureIsNumber: bool, hasGLContext: bool, miplevel: U32): (r: Option<ErrorCode>)
    ensures !textureIsNumber ==> r == Some(InvalidGLObject)
    ensures textureIsNumber && !hasGLContext ==> r == Some(InvalidContext)
    ensures textureIsNumber && hasGLContext ==> (r == Some(InvalidMipLevel) <==> miplevel >= 0x8000_0000)
    ensures r.None? <==> textureIsNumber && hasGLContext && ToInt32(miplevel) >= 0
  {
    if !textureIsNumber then Some(InvalidGLObject)
    else if !hasGLContext then Some(InvalidContext)
    else if ToInt32(miplevel) < 0 then Some(InvalidMipLevel)
    else None
  }
}
