# node-webcl host-side bookkeeping, modelled in Dafny

node-webcl binds the OpenCL 1.1/1.2 C API to JavaScript. Script code sees WebCL objects: platforms, devices, contexts, command queues, memory objects and events. Each is a C++ wrapper that holds one native OpenCL handle.

This project models the layer the binding runs around each native call:

- the process-wide registry from native handle to wrapper;
- the reference-counted destruction every refcounted wrapper shares;
- the find-or-wrap discovery of objects returned by `getInfo`;
- the construction of event wait lists;
- the argument, range and context checks each `enqueue*` runs before it reaches the runtime;
- device selection for a new command queue;
- the argument checks of context, sub-buffer and GL-interop creation;
- the first-match mapping of a failed native status to a named exception.

The native OpenCL runtime is an oracle. The `OpenCL.Runtime` class holds the reference count and context that queries report, and it logs the native calls the binding issues. Every other answer the runtime gives is a parameter of the operation that receives it: statuses, sizes, device types, queue properties and newly created handles. So the contracts state exactly which calls are issued, in which order, and what happens for every possible answer.

Modules follow the source files:

- `Common` covers `common.h`: the kinds, the name table, `REQ_ERROR_THROW` chains and `Baton`.
- `Registry` covers the wrapper base class and the registry functions of `webcl.cc`.
- `WaitList` covers the `MakeEventWaitList` macro.
- `Validation` covers the checks `enqueue*` runs before submission.
- `CommandQueue`, `Context`, `MemoryObject` and `WebCL` cover the rest of their files.
- `OpenCL` holds the codes, constants, command descriptions and the runtime oracle.
- `Wrappers` holds `Option`.

Where a check in the source is evidently wrong, the model states it twice: once as written, with a lemma that exhibits the input, and once corrected. Each operation that runs such a check takes a `corrected` flag. With `corrected` false it computes exactly what the source computes; with `corrected` true it uses the corrected check. Rows below say which mode a contract covers when it does not cover both. See "## Findings".

## Model

| member | source | states |
|---|---|---|
| OpenCL.ToInt32 | src/commandqueue.cc:444-448 | A 32-bit pattern read as a C `int`: the result lies in the signed range, agrees with the pattern modulo 2^32, and is negative exactly from 2^31 on |
| OpenCL.JsInt | src/common.h:90 | A number handed to script through `JS_INT` arrives reduced modulo 2^32: it is unchanged when already in range, and a negative 32-bit value wraps by 2^32 |
| OpenCL.AddSize | src/commandqueue.cc:1352-1360 | `size_t` addition wraps at 2^64, and is exact when the sum fits |
| OpenCL.MulSize | src/commandqueue.cc:1269-1275 | `size_t` multiplication wraps at 2^64, and is exact when the product fits |
| OpenCL.Code | src/common.h:114-116 | Every OpenCL error code the binding names has its negative value |
| OpenCL.CodeInjective | src/common.h:116 | Distinct codes have distinct values, so a status matches at most one `REQ_ERROR_THROW` line |
| Common.Ordinal | src/common.h:152-165 | The `CLObjType` value of each kind is below `MAX_WEBCL_TYPES` |
| Common.OrdinalInjective | src/common.h:152-165 | Distinct kinds have distinct enumerator values |
| Common.GetCLObjName | src/common.h:191-193 | An in-range tag yields a non-empty name; a tag at or above `MAX_WEBCL_TYPES` yields the empty string |
| Common.NameTableMatchesKinds | src/common.h:152-178 | The name table is index-aligned with the enumeration: each kind's tag looks up that kind's own name, `clObjNone` giving "UNKNOWN" |
| Common.ThrowChain | src/common.h:116 | A chain of `REQ_ERROR_THROW` lines throws a code only if it is in the chain and equals `ret`; it falls through to "UNKNOWN ERROR" exactly when no listed code equals `ret` |
| Common.ThrowChainNamesListed | src/commandqueue.cc:328-347 | A failed call whose status is a code's value throws that code exactly when the chain lists it, whatever the order or repetitions of the chain |
| Common.Baton.constructor | src/common.h:144 | A new baton has no callback, no message, no private data, and error `CL_SUCCESS` |
| Registry.WebCLObject.constructor | src/common.h:196-197 | A new wrapper has its kind, no native handle, and is not a sub-buffer |
| Registry.WebCLObject.Destructor | src/commandqueue.cc:138-151 | The refcount protocol for a non-null handle of a refcounted kind. It issues one native release, and the native count drops by one when it was positive. It clears the handle and unregisters the wrapper (unless at exit) exactly when the reported count was 1. A null handle or another kind does nothing and leaves every count as it was |
| Registry.WebCLObject.Finalize | src/common.h:199-212 | The C++ destructor reaches only the base `Destructor`, so finalization unregisters the wrapper and issues no native release |
| Registry.DestroyStep | src/context.cc:88-103 | One destructor call releases iff the kind is refcounted and the handle is non-null; it unregisters iff it released and the count was 1; the handle is then cleared, else kept |
| Registry.DestroyAfterClearIsNoop | src/context.cc:88-90 | Once a destructor call has cleared the handle, every later call does nothing, whatever count is reported |
| Registry.ReleaseRunCount | src/memoryobject.cc:68-81 | k calls on a wrapper whose count starts at c≥1 issue min(k, c) native releases and clear the handle exactly when k ≥ c; a count reported as 0 never clears and releases on every call |
| Registry.ReleaseRunFromNull | src/memoryobject.cc:68-69 | Calls on a wrapper with a null handle release nothing and leave it null |
| Registry.DestroyRepeatedly | src/context.cc:88-103 | k successive destructor calls follow `ReleaseRun` exactly. For a refcounted kind with a live handle and count c they issue min(k, c) releases (k when c is 0), all of the first handle. That handle's count drops by the number of releases while positive, and no other count changes. The wrapper leaves the registry (unless at exit) exactly when its handle was cleared |
| Registry.Without | src/webcl.cc:52-55 | Removing a wrapper keeps exactly the entries that point elsewhere, unchanged |
| Registry.Registry.constructor | src/webcl.cc:46 | The registry starts empty, with the exit flag clear |
| Registry.Registry.Register | src/webcl.cc:47-50 | A null handle or null wrapper leaves the registry as it was; otherwise the handle maps to the wrapper |
| Registry.Registry.Unregister | src/webcl.cc:52-55 | During teardown or for null nothing changes; otherwise exactly the wrapper's entries go |
| Registry.Registry.Find | src/webcl.cc:57-62 | The result is non-null iff the handle is non-null and registered, and is then the registered wrapper |
| Registry.Registry.OnExit | src/webcl.cc:64-76 | Teardown leaves the registry empty |
| Registry.Registry.ReleaseAll | src/webcl.cc:108-114 | The exit flag becomes "argument non-zero" before teardown, and the registry is empty afterwards |
| Registry.RegistrationsLastWins | src/webcl.cc:47-50 | After a series of registrations, a non-null handle maps to the wrapper registered for it last, or keeps its earlier entry when none was |
| Registry.UnregisterForgetsWrapper | src/webcl.cc:52-55 | Right after a wrapper is unregistered no handle maps to it |
| Registry.Wrap | src/memoryobject.cc:242-255 | `X::New(handle)`: a fresh wrapper of the kind holds the handle and is registered under it (a null handle is not registered) |
| Registry.Discover | src/memoryobject.cc:155-162 | Find-or-wrap: null for a null handle. Otherwise it returns the registered wrapper when one exists, without change, or a new registered wrapper of the requested kind. A non-null handle is held by the result afterwards |
| WaitList.Views | src/commandqueue.cc:51-66 | One view per listed event, in order, with the handle, status, context and count the event reports |
| WaitList.KeptHandles | src/commandqueue.cc:68-70 | The kept handles are never more than the listed events |
| WaitList.AllHandles | src/commandqueue.cc:69 | The listed events' handles, one per event, in order |
| WaitList.ScanPrefixStep | src/commandqueue.cc:51-72 | The scan of one more event is one loop iteration applied to the scan of the prefix |
| WaitList.ScanWithoutOffenders | src/commandqueue.cc:68-70 | With no failed or foreign event, the loop collects exactly the bound, still-referenced events' handles, in order |
| WaitList.ScanStopsAtFirstOffender | src/commandqueue.cc:55-67 | The first bound event that has failed or belongs to another context decides the error (a failed status before a foreign context), whatever follows it |
| WaitList.ScanAbortsIffOffender | src/commandqueue.cc:55-67 | The loop aborts exactly when some bound event has failed or belongs to another context |
| WaitList.KeptAll | src/commandqueue.cc:68-82 | Every event is kept exactly when the count of appended handles equals the list length, and the native list is then all handles in order |
| WaitList.WaitListAcceptsIffAllAcceptable | src/commandqueue.cc:43-82 | A list is accepted exactly when every event is bound, not failed, in the queue's context and still referenced; the native list is then all listed handles in order |
| WaitList.FailedEventRejects | src/commandqueue.cc:55-60 | A bound event with a negative status, with no offender before it, fails the submission with EXEC_STATUS_ERROR_FOR_EVENTS_IN_WAIT_LIST |
| WaitList.DeadEventRejects | src/commandqueue.cc:68-82 | An unbound or released event, with no failed or foreign event in the list, fails the submission with INVALID_EVENT_WAIT_LIST |
| WaitList.ScanAbortPersists | src/commandqueue.cc:55-67 | Once a prefix aborts, the whole list aborts with the same code |
| WaitList.ScanEvents | src/commandqueue.cc:51-72 | The builder's loop answers exactly as `Scan` does: the first offender's code (a failed status or a foreign context, nothing else), or the kept handles in order in the leading slots of the array |
| WaitList.MakeEventWaitList | src/commandqueue.cc:43-82 | The loop fills a newly allocated array with a counter. Its failure is exactly `WaitListFailure`'s. On failure no list is left. On success the count is the list length and the fresh array holds every handle in order. An absent or empty list gives a null array with count 0. The array is leaked exactly on the status and context exits |
| Validation.SameContextMeaning | src/commandqueue.cc:252-263 | With both context queries answered, affinity holds iff the contexts are equal; a query that fails (null pre-load for the queue, all-ones for the operand) never matches a real context |
| Validation.CopyToForeignContextAccepted | src/commandqueue.cc:778-786 | As written, a copy whose destination lives in another context passes affinity |
| Validation.CopyContextOkMeaning | src/commandqueue.cc:778-786 | Corrected copy affinity passes iff queue, source and destination share one context |
| Validation.Overlay | src/commandqueue.cc:504-519 | A three-slot origin or region holds the script's entry where one is given and the default (0 for origins, 1 for regions) elsewhere |
| Validation.FillAsWrittenShape | src/commandqueue.cc:508-519 | The fill loop as written, for every script array: each entry lands at its own index, slots it does not reach keep their defaults, and exactly max(3, n) locations are written for n entries |
| Validation.FillOverrunsIff | src/commandqueue.cc:508-519 | As written, the loop writes an index at or past 3 exactly when the script gives more than three entries, and then writes each extra entry at its own index |
| Validation.FillAsWrittenInBounds | src/commandqueue.cc:508-519 | With at most three entries the as-written loop leaves exactly the overlay of the entries on the defaults |
| Validation.FourEntryArrayOverruns | src/commandqueue.cc:508-510 | A four-entry origin array makes the as-written loop store its fourth entry at index 3, past the end of the three-slot array |
| Validation.FillTriple | src/commandqueue.cc:504-519 | Corrected: the fill loop bounded by three leaves exactly the overlay of the script's entries on the defaults |
| Validation.EmptyRegionIffGivenZero | src/commandqueue.cc:882-890 | The zero-region check fires exactly when one of the script's first three region entries is 0; the slots it leaves out keep 1 and never trigger it |
| Validation.WriteRangeWrapAccepts | src/commandqueue.cc:444-448 | A one-byte write at offset 2^32-1 from an empty host buffer passes the check as written, and the corrected check refuses it |
| Validation.WriteRangeSignAccepts | src/commandqueue.cc:444-448 | A 2 GiB write from an empty host buffer passes the check as written, since the sum reads as negative; the corrected check refuses it |
| Validation.WriteRangeMeaning | src/commandqueue.cc:444-448 | The corrected check accepts a write exactly when the offset is within the host buffer and every byte of the write lies inside it. Whatever the written check refuses, the corrected one refuses too, and the two agree whenever the sum stays below 2^31 |
| Validation.ReadRangeIgnoresSize | src/commandqueue.cc:623-627 | As written, an eight-byte read into a four-byte host buffer passes |
| Validation.ReadRangeMeaning | src/commandqueue.cc:623-627 | The corrected check accepts a read exactly when the offset is within the host buffer and every byte it fills lies inside it. Whatever the written check refuses, the corrected one refuses too |
| Validation.OverlappingMeaning | src/commandqueue.cc:801-807 | The overlap test holds exactly when the half-open source and destination byte ranges share a byte |
| Validation.ArgumentFailure | src/commandqueue.cc:276-294 | A command's argument checks in source order, in both modes. Missing or empty globals give INVALID_GLOBAL_WORK_SIZE, and nothing else does. MEM_COPY_OVERLAP comes exactly from an in-range same-buffer copy whose ranges overlap. A missing host buffer gives INVALID_VALUE. A buffer write or read with a host buffer gives INVALID_VALUE exactly when the selected range check refuses it. Task, map, unmap and wait are never refused |
| Validation.Precheck | src/commandqueue.cc:778-807 | Affinity comes first: an operand from another context gives INVALID_CONTEXT. As written only the checked operand is compared, and otherwise the source's argument checks decide. Corrected, a copy's destination is compared too. Anything but INVALID_CONTEXT is the argument checks' answer in the same mode |
| Validation.CorrectionOnlyAddsRefusals | src/commandqueue.cc:444-448 | Every command the source refuses before submission, the corrected checks refuse too. Commands other than buffer writes and reads meet the same argument checks in both modes |
| Validation.CopyOverlapMeaning | src/commandqueue.cc:801-807 | A same-buffer copy whose ranges fit is refused with MEM_COPY_OVERLAP exactly when some byte lies in both ranges, in either mode, and never with INVALID_VALUE |
| Validation.MappedLength | src/commandqueue.cc:1474-1571 | A mapped buffer view is `size` bytes long. A mapped image view is the `size_t` product of its three region slots: exact when it fits below 2^64, and 0 when a slot is 0 |
| Validation.MapTriple | src/commandqueue.cc:1514-1524 | Map-image reads exactly three entries, a missing one reading as 0 |
| Validation.ShortMapRegionIsEmpty | src/commandqueue.cc:1520-1572 | A map-image region with fewer than three entries maps a zero-length view |
| CommandQueue.SubmitSpec | src/commandqueue.cc:243-352 | In the selected mode, the native enqueue is issued iff the checks and the wait list both pass. A check failure throws its own code. An issued call completes iff the runtime answers CL_SUCCESS; otherwise its status goes through the command's chain |
| CommandQueue.ForeignOperandNeverIssued | src/commandqueue.cc:252-263 | In either mode, a kernel or memory operand in another real context is refused with INVALID_CONTEXT and never reaches the runtime |
| CommandQueue.ForeignCopyDestinationNeverIssued | src/commandqueue.cc:778-786 | Corrected: a copy destination in another context is refused the same way |
| CommandQueue.ForeignCopyDestinationIssuedAsWritten | src/commandqueue.cc:778-786 | As written, a copy whose source shares the queue's context reaches the runtime whatever context its destination is in, once its arguments and wait list pass |
| CommandQueue.CorrectedSubmissionAgrees | src/commandqueue.cc:243-352 | Whatever the corrected checks let through, the source lets through too, with the same outcome |
| CommandQueue.MissingGlobalsNeverIssued | src/commandqueue.cc:276-294 | In either mode, an NDRange without global sizes is refused with INVALID_GLOBAL_WORK_SIZE, whatever its wait list |
| CommandQueue.FailedEventNeverIssued | src/commandqueue.cc:55-60 | A failed listed event with none offending before it refuses a submission that passed its checks, whatever the runtime would answer |
| CommandQueue.IssuedOnlyWithAcceptableEvents | src/commandqueue.cc:43-82 | A submission reaches the runtime only if every listed event is acceptable |
| CommandQueue.BindEvent | src/commandqueue.cc:349-352 | `setEvent`: the script's event takes the produced handle and is registered under it |
| CommandQueue.Submit | src/commandqueue.cc:243-352 | Every `enqueue*`, in the selected mode: outcome as `SubmitSpec` says for the contexts the runtime reports. The native call, with the wait list's handles, is logged exactly when issued. The event object is bound exactly on success with an event given (never for the wait). Otherwise the event and the registry are untouched |
| CommandQueue.EnqueueMarker | src/commandqueue.cc:1642-1665 | The marker is always issued; its status goes through the marker chain; the event is bound exactly on success with an event given |
| CommandQueue.BarrierWaitErrorLostAsWritten | src/commandqueue.cc:1716-1729 | As written, every failure of the barrier's wait throws "UNKNOWN ERROR" |
| CommandQueue.BarrierWaitError | src/commandqueue.cc:1721-1728 | Corrected: the barrier's wait failure is mapped through its own status, so a named code equals it |
| CommandQueue.BarrierWaitErrorNamed | src/commandqueue.cc:1721-1728 | Each listed wait failure keeps its name when mapped through the wait's status, and loses it as written |
| CommandQueue.EnqueueBarrier | src/commandqueue.cc:1699-1746 | A wait-list failure throws before any call. Otherwise the barrier is issued, and a wait on the list follows exactly when the list is non-empty and the barrier succeeded. A failed wait throws "UNKNOWN ERROR" as written and the wait's own code corrected; a failed barrier throws through the queue chain. No event is ever bound. The native list is leaked exactly on the builder's leaking exits, or when a non-empty list meets a failed barrier or wait |
| CommandQueue.Flush | src/commandqueue.cc:1821-1835 | Issues the flush; its status is thrown through the flush chain |
| CommandQueue.Finish | src/commandqueue.cc:1792-1819 | A queue with no handle throws INVALID_COMMAND_QUEUE without a native call; otherwise the finish is issued and its status goes to the callback when one is given, else through the finish chain |
| CommandQueue.Release | src/commandqueue.cc:153-170 | Flushes first. A failed flush throws and leaves the queue, the registry and the counts untouched. A successful one runs the refcount destructor: the queue's new handle, registry and counts are the destructor's |
| CommandQueue.New | src/commandqueue.cc:1963-1976 | A fresh queue wrapper holds the handle and is registered under it |
| CommandQueue.GetInfo | src/commandqueue.cc:172-240 | An unknown parameter gives INVALID_VALUE. A failed query goes through the info chain. Properties reach script modulo 2^32, through `JS_INT`. Context and device answers are found or wrapped, and are null for a null handle |
| Context.Release | src/context.cc:88-115 | The refcount destructor: one release for a live handle, the count dropping by one when positive, and clear and unregister exactly when the count was 1 |
| Context.ReleaseAll | src/context.cc:125-137 | `AtExit(NULL)` has no effect at the call, so only the destructor acts, under the same protocol; the teardown flag is unchanged |
| Context.WrapDevices | src/context.cc:159-188 | The device array has one slot per device. A slot is null exactly for a null handle. Each other device is held by its slot. Registered devices reuse their wrapper, and earlier registrations survive |
| Context.PropertyArray | src/context.cc:189-206 | The property array has one entry per property corrected and eight per property as written (the byte count used as an entry count); its first entries are the properties through `JS_INT` |
| Context.PropertyArrayOverrunsAsWritten | src/context.cc:190-203 | As written, a non-empty property list comes back with seven extra entries per property, read from memory the runtime never wrote |
| Context.PropertyArrayExact | src/context.cc:203-205 | Corrected, the array has exactly the property list's length, each entry equal to its property modulo 2^32 and unchanged when already in range |
| Context.GetInfo | src/context.cc:139-215 | An unknown parameter gives INVALID_VALUE. A failed query goes through the context-info chain. Counts come back as numbers, devices as discovered wrappers, and the property list as `PropertyArray` in the selected mode |
| Context.FirstGpuFrom | src/context.cc:322-338 | The result is the first index from j on whose device type is GPU, or the list length when there is none |
| Context.FirstMatchFrom | src/context.cc:386-405 | The result is the first index from j on whose queue-property query failed or shares a bit with the request, or the list length |
| Context.DeviceArray | src/context.cc:307-321 | The device-list query fills an array of the given slot count: a failed query keeps its status, more devices than slots give INVALID_VALUE, and otherwise the devices fill the leading slots and the remaining slots hold the unwritten values |
| Context.CorrectedArrayIsDeviceList | src/context.cc:351-356 | With one slot per device, the array is exactly the context's device list |
| Context.ManyDevicesRefusedAsWritten | src/context.cc:351-356 | As written, with the count query's 4-byte size as slot count, a context of five or more devices gets INVALID_VALUE from the list query, and the corrected slot count lists them |
| Context.SelectDevice | src/context.cc:302-405 | Over the device array's slots: a given device is used as is. A failed device-list query throws through its chain. With no properties, the first GPU slot is chosen, else slot 0. A null device with properties takes slot 0. Otherwise it is the first slot whose properties intersect the request: null when there is none, and a failed property query throws through its chain |
| Context.NoPropertiesPrefersGpu | src/context.cc:367-384 | With no properties requested and a GPU in the context, a GPU at or before it is chosen |
| Context.AutoSelectionSupportsProperties | src/context.cc:386-405 | A device chosen for requested properties sits in a slot of a listed array and supports one of the requested bits |
| Context.CorrectedAutoSelectionFromContext | src/context.cc:386-405 | Corrected, a device chosen for requested properties is one of the context's devices and supports one of the requested bits |
| Context.StaleSlotQueriedAsWritten | src/context.cc:351-356 | As written, a one-device context whose device supports only profiling, asked for out-of-order execution, has slot 1 queried; a runtime refusing that handle makes the request throw INVALID_DEVICE, where the corrected selection ends with no device |
| Context.SelectQueueDevice | src/context.cc:302-405 | The selection loops of `createCommandQueue`, run over the array's slots with the runtime's per-slot answers, compute exactly that selection |
| Context.ProfilingOnlyDevicePassesAsWritten | src/context.cc:410-418 | As written, a device supporting profiling but not out-of-order execution passes the out-of-order check |
| Context.OutOfOrderRejectedMeaning | src/context.cc:413-418 | Corrected: a request passes exactly when it does not ask for out-of-order execution or the device has that bit; a failed query refuses every such request |
| Context.OutOfOrderWrittenIsLaxer | src/context.cc:410-418 | Everything the check as written refuses, the corrected one refuses too. When the device query fails, as it must on a runtime that enforces the buffer size, the written check refuses every out-of-order request |
| Context.CreateCommandQueue | src/context.cc:292-435 | The device array has the count query's reported size as slot count as written and one slot per device corrected. Selection over it failing throws without creation. An out-of-order request the selected check refuses throws INVALID_VALUE without creation. Otherwise creation is issued for the selected device. Its failure goes through the creation chain; its success yields a fresh registered queue |
| Context.ImageFormatsQuery | src/context.cc:602-615 | Rejected with INVALID_VALUE exactly when the given flags exceed `CL_MEM_HOST_NO_ACCESS<<1`. Absent flags mean READ_WRITE. The image type is IMAGE2D unless both arguments are given |
| Context.GLTextureFailure | src/context.cc:727-752 | A non-number texture gives INVALID_GL_OBJECT, then a context without a WebGL context gives INVALID_CONTEXT, then a mip level from 2^31 (negative once stored signed) gives INVALID_MIP_LEVEL |
| MemoryObject.Release | src/memoryobject.cc:68-94 | The refcount destructor of memory objects, as for contexts, the count dropping by one when positive |
| MemoryObject.New | src/memoryobject.cc:242-255 | A fresh memory wrapper, not a sub-buffer, holds the handle and is registered under it |
| MemoryObject.GetInfo | src/memoryobject.cc:97-201 | An unknown parameter gives INVALID_VALUE. A failed query goes through the chain. Numbers come back modulo 2^32. Associated memory object and context are found or wrapped, and null when there is none |
| MemoryObject.SameAccessCompatible | src/memoryobject.cc:323-331 | A sub-buffer asking for its parent's own access, or for no access bits, is compatible |
| MemoryObject.ReadWriteParentAdmitsAll | src/memoryobject.cc:323-331 | A read-write parent admits every flag set |
| MemoryObject.ReadOnlyParentAdmits | src/memoryobject.cc:323-331 | A read-only parent admits exactly the flag sets with neither WRITE_ONLY nor READ_WRITE |
| MemoryObject.SubBufferFailure | src/memoryobject.cc:307-349 | A sub-buffer, incompatible flags or origin ≥ size give INVALID_VALUE. An associated parent gives INVALID_MEM_OBJECT. Nothing is refused otherwise |
| MemoryObject.CreateSubBuffer | src/memoryobject.cc:307-371 | A failed check throws without a native call. Otherwise the creation is issued. Its failure goes through the chain; its success yields a fresh registered wrapper marked as a sub-buffer |
| WebCL.NamedDeviceTypesAccepted | src/webcl.cc:263-268 | Each named device type, ALL included, passes the GL overloads' type check |
| WebCL.DeviceTypeComparedAsNumber | src/webcl.cc:263-268 | The type check compares numbers, not bits: CPU\|CUSTOM is refused and CPU\|GPU accepted |
| WebCL.DeviceTypeOf | src/webcl.cc:263 | An absent device type means DEFAULT |
| WebCL.ContextPrecheck | src/webcl.cc:116-379 | INVALID_DEVICE_TYPE can come only from the GL overloads, for a type above CUSTOM other than ALL. INVALID_VALUE comes exactly from an unsupported object or an empty device list. Every other overload is not refused |
| WebCL.PlainOverloadsSkipTypeCheck | src/webcl.cc:124-175 | The plain overloads pass any device type on to the runtime |
| WebCL.RuntimeDeviceTypeErrorUnnamed | src/webcl.cc:404-416 | The runtime's INVALID_DEVICE_TYPE is not in the creation chain and reaches script as "UNKNOWN ERROR" |
| WebCL.ContextErrorsNamed | src/webcl.cc:404-416 | Each listed creation failure is thrown under its own name |
| WebCL.GLDeviceListContextRefusesTextures | src/webcl.cc:332-364 | As written, a context made from a rendering context and a device list refuses every texture with INVALID_CONTEXT; corrected, it accepts one |
| WebCL.GLContextLostAsWritten | src/webcl.cc:218-364 | As written, the type, platform and device-list GL overloads lose the rendering context: every texture is refused with INVALID_CONTEXT whatever the mip level. Under the corrected rule that refusal never happens |
| WebCL.CreateContext | src/webcl.cc:116-418 | A failed check throws. A first argument of no recognised kind yields a context with no handle. A runtime failure goes through the chain. Success yields a fresh registered context that keeps the WebGL context: only for the device overload as written, for every GL overload corrected. Corrected, no texture on a GL context is ever refused with INVALID_CONTEXT; as written, every texture on a context from the type, platform or device-list GL overloads is |

## Left out

- Argument marshalling: V8/NAN argument types, `Uint32Value` coercion and array casts. The model takes coerced naturals and sequences. It reads a script array's length as the length of the given sequence.
- `REQ_ARGS`, `REQ_STR_ARG` and the like throw without returning. They are not modelled because they are marshalling.
- The bodies of native OpenCL calls are oracles. The runtime's answers are parameters, except the reference count and context queries, which are the `Runtime` state.
- `bufferRectSize` and `imageRectSize` are defined in `cl_checks.h`, which is not part of this model. The values they return are inputs, and only their call-site checks are modelled.
- `Manager` in `manager.h` is not part of this model. The registry is an abstract map from handle to wrapper, with latest registration winning.
- The forced garbage collection loop of `onExit` is left out, because it is a runtime effect, not state the binding keeps.
- `FinishWorker` and `WaitForEventsWorker` are left out, because they are asynchronous callbacks. `CommandQueue.Finish` stops at handing the status to the baton.
- GL interop is left out: context property building for CGL/WGL/GLX, the `createFromGL*` native calls, and `getGLObjectInfo`. Only the checks `createFromGLTexture` makes before its native call are modelled.
- Platform discovery in `createContext` is left out: `clGetPlatformIDs`, the "Can NOT get an OpenCL platform!" messages, and property list building.
- `getPlatforms`, program, image, sampler and user-event creation, and `createBuffer` are left out, because they are thin wrappers over one native call each.
- The list assembly of `getSupportedImageFormats` is left out. Its argument check is modelled.
- Map and unmap aliasing of native memory is left out, because it is foreign memory. `Validation.MappedLength` gives only the length of the returned view.
- `getInfo(CL_MEM_HOST_PTR)` is left out, because it dereferences a foreign host address.
- Buffer, offset and size values are unbounded naturals. Only the conversions the binding performs are made explicit: the 32-bit `int` casts, the 32-bit sum behind the write-buffer check, and `size_t` wrap in the image checks.
- `operator==` on wrappers is left out. It always answers false and nothing in the modelled core calls it.
- `Registry.RegistrationsLastWins`: covers registrations only. `Registry.UnregisterForgetsWrapper` covers an unregistration as the last step.
- Memory leaks are recorded, not modelled as memory:
  - `WaitList.MakeEventWaitList` returns a `leaked` flag for the array the status and context exits abandon.
  - The barrier also abandons a non-empty list when the barrier itself fails or its wait fails: the list is freed only on the path where both succeed (`src/commandqueue.cc:1716-1731`).
  - NDRange abandons its offset and size arrays when a wait-list check fails.
- The event context query in the wait-list loop reads an uninitialised `ctx_ev` when the query fails. The model reads 0 there, like every other pre-loaded query.
- The redundant second count check after `MakeEventWaitList` in several `enqueue*` methods (for example `src/commandqueue.cc:811-817`) is dead code. The macro has already returned when counts differ, which `WaitList.MakeEventWaitList` states (count equals length on success).
- `Context.ReleaseAll`: `AtExit` is not defined in the repository. With `using namespace node` at `src/context.cc:39` it names node's at-exit hook registration, which runs nothing at the call. So `releaseAll` does not run the registry teardown of `src/webcl.cc:64-76` before the destructor, and the model gives the call no effect. Registering a null hook is not modelled.
- `Context.FirstDevice`: `devices[0]` of an array with no slots reads past it. That happens only when the count query fails, or, corrected, for a context without devices. The model reads the null device there.
- `Context.DeviceArray`: the unwritten slots of the array are whatever the allocation held. The model takes them as a parameter, a missing one reading as null, and the runtime's answers for those slots are parameters too.
- `Validation.ArgumentFailure`: reads only the first three entries of an origin or region (`Validation.Overlay`). As written, the fill loops copy every entry and store past the three-slot arrays (`Validation.FillAsWritten`). That is undefined behaviour, and its effect on the checks is not modelled.
- `Context.PropertyArray`: the entries past the property list are uninitialised memory. The model gives them the value 0, and states nothing about them.
- The refcounted destructors query the count into an uninitialised `cl_uint count` (`src/context.cc:92`, `src/commandqueue.cc:140`, `src/memoryobject.cc:70`). When the query fails, the value compared with 1 is undetermined. The model reads 0 there, so such a call releases without clearing the handle.
- `Event::setEvent` and `Device::New` are defined in `src/event.cc` and `src/device.cc`, which are not part of this model. `CommandQueue.BindEvent` and `Registry.Discover` take them to store the handle and register the wrapper, as the `New` functions of the modelled files do.
- The out-of-order check of `createCommandQueue` queries the device's queue properties into a 4-byte `int`. The property is 8 bytes, so a runtime that enforces the buffer size fails that query and leaves 0. The model takes the query's answer as an input (`None` when it fails), which covers both kinds of runtime.
- `MemoryObject.SubBufferFailure` keeps `origin >= size` as written. OpenCL places no such relation between a sub-buffer's origin and its size. It is recorded here rather than as a finding because the intended check is not evident.
- Release is not idempotent while the native count is above 1. Each call issues another native release until a call sees the count 1 (`Registry.ReleaseRunCount`, `Registry.DestroyRepeatedly`). Only once the handle is cleared do further calls do nothing (`Registry.DestroyAfterClearIsNoop`).

## Findings

| source | as written | input that shows it | evidently intended | confidence | as-written member | corrected member |
|---|---|---|---|---|---|---|
| src/commandqueue.cc:444-448 | `len < (int)(size+offset)` computes the sum in 32 bits and reads it signed | host length 0, offset 0xFFFFFFFF, size 1; or offset 0, size 0x80000000 | refuse any write whose exact `offset+size` exceeds the host buffer | not executed; high | Validation.WriteRangeWrapAccepts | Validation.WriteRangeMeaning |
| src/commandqueue.cc:623-627 | the read-buffer check compares only `offset > len`; the size plays no part | host length 4, offset 0, size 8 | refuse any read whose `offset+size` exceeds the host buffer, as on the write path | not executed; high | Validation.ReadRangeIgnoresSize | Validation.ReadRangeMeaning |
| src/commandqueue.cc:508-519 | origin and region fill loops run once per script entry into three-slot arrays | a four-entry `buffer_origin` array writes slot 3 | copy at most three entries | not executed; high | Validation.FillOverrunsIff | Validation.FillTriple |
| src/commandqueue.cc:778-786 | copy affinity compares only the source's context with the queue's | queue and source in context 7, destination in context 9 | both operands of a copy must share the queue's context | not executed; medium | Validation.CopyToForeignContextAccepted | Validation.CopyContextOkMeaning |
| src/commandqueue.cc:1716-1729 | the error mapping after the barrier's wait tests `ret` (the barrier's status, CL_SUCCESS there) instead of `ret2` | wait answers INVALID_EVENT; "UNKNOWN ERROR" is thrown | map the wait's own status | not executed; high | CommandQueue.BarrierWaitErrorLostAsWritten | CommandQueue.BarrierWaitErrorNamed |
| src/context.cc:410-418 | out-of-order support is read as "device queue properties, truncated to an `int`, non-zero" | on a runtime that writes the low 32 bits into the 4-byte buffer: device queue properties = PROFILING only (2), request OUT_OF_ORDER (1), accepted. A runtime that enforces the buffer size fails the query instead, and every out-of-order request is refused | query the full 8-byte properties and test their OUT_OF_ORDER bit | not executed; medium | Context.ProfilingOnlyDevicePassesAsWritten | Context.OutOfOrderRejectedMeaning |
| src/webcl.cc:218-364 | only the rendering-context-plus-device overload stores the WebGL context on the new context | `createContext(gl, [device])` followed by `createFromGLTexture` throws INVALID_CONTEXT | every overload given a rendering context keeps it | not executed; medium | WebCL.GLContextLostAsWritten | WebCL.CreateContext |
| src/context.cc:190-206 | the size query's byte count `n` is used as the number of property entries, for the array allocated, the array returned and the loop | a context with the 3-entry list `[CL_CONTEXT_PLATFORM, p, 0]` returns 24 entries, 21 of them never written | return `n / sizeof(cl_context_properties)` entries | not executed; high | Context.PropertyArrayOverrunsAsWritten | Context.PropertyArrayExact |
| src/context.cc:307-311 | the size-returned argument of the `CL_CONTEXT_NUM_DEVICES` query, the byte size 4 of its `cl_uint` answer, is used as the device count; the selection loops run over 4 slots (also 351-356, 329, 374, 386) | one device supporting PROFILING only, `createCommandQueue(OUT_OF_ORDER)`: slot 1, never written, is queried, and a runtime rejecting it throws INVALID_DEVICE where the intended result is no device | read the `cl_uint` count itself, or divide the DEVICES query's size by `sizeof(cl_device_id)` | not executed; high | Context.StaleSlotQueriedAsWritten | Context.CorrectedAutoSelectionFromContext |
| src/context.cc:351-356 | the device list is requested into `sizeof(cl_device_id)*4` bytes whatever the context holds | a context of five devices: the list query fails and `createCommandQueue` throws INVALID_VALUE | size the array from the device count | not executed; high | Context.ManyDevicesRefusedAsWritten | Context.CorrectedArrayIsDeviceList |
